/**
 * The earlier asyncawait AsyncUi.kt: per-owner executors and a registry for `cancelAll`,
 * as in Async.kt, but with the shared delivery rules of the AsyncUi.kt versions. Only a
 * plain `await` is cancelable: it runs an `AwaitTask` kept in `currentTask`, while
 * `awaitWithProgress` submits a bare closure that nothing can reach.
 */
module AsyncAwaitUi {
  import opened Optional
  import opened Script
  import opened Owners
  import opened LegacyRules

  /** The task of a plain `await`: its function takes no progress handler, so only its outcome matters. */
  class AwaitTask {
    const outcome: Outcome
    var isCancelled: bool
    var asyncController: AsyncController?
    var machine: Option<Continuation>

    constructor (outcome: Outcome, controller: AsyncController, machine: Continuation)
      ensures this.outcome == outcome && !isCancelled && asyncController == controller && this.machine == Some(machine)
    {
      this.outcome := outcome;
      isCancelled := false;
      asyncController := controller;
      this.machine := Some(machine);
    }

    predicate Cancelled()
      reads this
    {
      isCancelled && asyncController == null && machine.None?
    }

    /** `cancel()`: release the controller and the machine, then set the flag; a second call changes nothing. */
    method Cancel()
      modifies this
      ensures Cancelled()
    {
      asyncController := null;
      machine := None;
      isCancelled := true;
    }
  }

  class AsyncController {
    const target: Target
    const body: Body
    var errorHandler: Option<HandlerId>
    var currentTask: AwaitTask?

    constructor (target: Target, body: Body)
      ensures this.target == target && this.body == body && errorHandler.None? && currentTask == null
    {
      this.target := target;
      this.body := body;
      errorHandler := None;
      currentTask := null;
    }

    /** `isAlive()`: the same type table as Async.kt, evaluated when a message is handled. */
    function IsAlive(): bool
      reads target.Objects()
    {
      AliveByKind(target.View())
    }

    /** `onError`: the last registered handler wins. */
    method OnError(handler: HandlerId)
      modifies this`errorHandler
      ensures errorHandler == Some(handler)
    {
      errorHandler := Some(handler);
    }

    /** `cancel()`: cancels the last plain `await`'s task, if any. */
    method Cancel()
      modifies currentTask
      ensures currentTask != null ==> currentTask.Cancelled()
    {
      if currentTask != null {
        currentTask.Cancel();
      }
    }
  }

  /** What an owner's executor runs: an `AwaitTask`, or the bare closure of `awaitWithProgress`. */
  datatype Job =
    | TaskJob(task: AwaitTask)
    | ProgressJob(controller: AsyncController, work: Work, machine: Continuation)
  {
    function Reports(): seq<Report>
    {
      if TaskJob? then [] else work.Reports()
    }
  }

  /** The worker inside a job: the job and how many of its reports it has published. */
  datatype Running = Running(job: Job, published: nat)

  /** `Executors.newSingleThreadExecutor()`: a FIFO queue and at most one job running. */
  datatype Executor = Executor(queue: seq<Job>, running: Option<Running>)

  /** The owner's executor in `executors`, or the empty one `getExecutorService` would create for it. */
  function ExecutorIn(executors: map<Target, Executor>, t: Target): Executor {
    if t in executors then executors[t] else Executor([], None)
  }

  /** `executors` after the owner's executor, created on first use, has queued `job`. */
  function Enqueued(executors: map<Target, Executor>, t: Target, job: Job): map<Target, Executor> {
    var e := ExecutorIn(executors, t);
    executors[t := e.(queue := e.queue + [job])]
  }

  /** What a job posts once its work function has returned or thrown. */
  function CompletionPost(job: Job): (posts: seq<Message<AsyncController>>)
    reads if job.TaskJob? then {job.task} else {}
    ensures job.TaskJob? && job.task.isCancelled ==> posts == []
    ensures job.ProgressJob? ==> posts == [OutcomeMessage(job.controller, job.machine, job.work.outcome)]
  {
    match job
    case TaskJob(task) =>
      if task.isCancelled || task.machine.None? || task.asyncController == null then []
      else [OutcomeMessage<AsyncController>(task.asyncController, task.machine.value, task.outcome)]
    case ProgressJob(c, work, k) => [OutcomeMessage(c, k, work.outcome)]
  }

  /** The job `await`/`awaitWithProgress` submits at step `at`, given the task a plain `await` creates. */
  predicate SubmittedAt(controller: AsyncController, at: nat, job: Job)
    reads if job.TaskJob? then {job.task} else {}
  {
    && at < |controller.body| && controller.body[at].Await?
    && var k := ContinuationAt(controller.body, at);
       var work := controller.body[at].work;
       if work.Plain?
       then job.TaskJob? && job.task.outcome == work.outcome && !job.task.isCancelled
            && job.task.asyncController == controller && job.task.machine == Some(k)
       else job == ProgressJob(controller, work, k)
  }

  class AsyncRuntime {
    var uiQueue: seq<Message<AsyncController>>
    var executors: map<Target, Executor>
    var coroutines: map<Target, seq<AsyncController>>
    var log: seq<Event>

    constructor ()
      ensures uiQueue == [] && executors == map[] && coroutines == map[] && log == []
    {
      uiQueue, executors, coroutines, log := [], map[], map[], [];
    }

    function ExecutorOf(t: Target): Executor
      reads this`executors
    {
      ExecutorIn(executors, t)
    }

    function ControllersOf(t: Target): seq<AsyncController>
      reads this`coroutines
    {
      if t in coroutines then coroutines[t] else []
    }

    ghost function TasksOf(t: Target): set<AwaitTask>
      reads this`coroutines, set c | c in ControllersOf(t)
    {
      set c | c in ControllersOf(t) && c.currentTask != null :: c.currentTask
    }

    /** `keepCoroutineForCancelPurpose`: get or create the owner's list and append the controller. */
    method KeepCoroutineForCancelPurpose(controller: AsyncController)
      modifies this`coroutines
      ensures coroutines == old(coroutines)[controller.target := old(ControllersOf(controller.target)) + [controller]]
    {
      var t := controller.target;
      var list := if t in coroutines then coroutines[t] else [];
      coroutines := coroutines[t := list + [controller]];
    }

    /** `getExecutorService().submit(job)`: the owner's executor, created on first use, queues the job. */
    method Submit(t: Target, job: Job)
      modifies this`executors
      ensures executors == Enqueued(old(executors), t, job)
    {
      var e := ExecutorOf(t);
      executors := executors[t := e.(queue := e.queue + [job])];
    }

    /**
     * The await at step `at`: a plain `await` stores a new `AwaitTask` in `currentTask` and
     * submits it; `awaitWithProgress` submits a bare closure and leaves `currentTask` as it was.
     */
    method AwaitAt(controller: AsyncController, at: nat) returns (job: Job)
      requires at < |controller.body| && controller.body[at].Await?
      modifies this`executors, controller`currentTask
      ensures SubmittedAt(controller, at, job)
      ensures job.TaskJob? ==> fresh(job.task) && controller.currentTask == job.task
      ensures job.ProgressJob? ==> controller.currentTask == old(controller.currentTask)
      ensures executors == Enqueued(old(executors), controller.target, job)
    {
      var work := controller.body[at].work;
      var k := ContinuationAt(controller.body, at);
      if work.Plain? {
        var task := new AwaitTask(work.outcome, controller, k);
        controller.currentTask := task;
        job := TaskJob(task);
      } else {
        job := ProgressJob(controller, work, k);
      }
      Submit(controller.target, job);
    }

    /**
     * `async` on an owner: register a new controller and start the body with `resume(Unit)`,
     * which runs it up to its first await. An exception thrown before that await leaves `async`.
     */
    method Async(target: Target, body: Body) returns (controller: AsyncController, rethrown: Option<Exc>)
      modifies this`coroutines, this`executors, this`log
      ensures fresh(controller) && controller.target == target && controller.body == body && controller.errorHandler.None?
      ensures coroutines == old(coroutines)[target := old(ControllersOf(target)) + [controller]]
      ensures var r := Segment(body, 0);
              && log == old(log) + r.events
              && rethrown == (if r.stop.Threw? then Some(r.stop.exc) else None)
              && (r.stop.Suspended? ==>
                    exists job :: && SubmittedAt(controller, r.stop.at, job)
                                  && executors == Enqueued(old(executors), target, job)
                                  && (job.TaskJob? ==> fresh(job.task) && controller.currentTask == job.task)
                                  && (job.ProgressJob? ==> controller.currentTask == null))
              && (!r.stop.Suspended? ==> executors == old(executors) && controller.currentTask == null)
    {
      controller := new AsyncController(target, body);
      KeepCoroutineForCancelPurpose(controller);
      var r := Segment(body, 0);
      log := log + r.events;
      rethrown := None;
      match r.stop
      case Suspended(at) =>
        var job := AwaitAt(controller, at);
      case Completed =>
      case Threw(e) => rethrown := Some(e);
    }

    /** `Async.cancelAll`: cancel the current task of every controller registered for the owner. */
    method CancelAll(t: Target)
      modifies TasksOf(t)
      ensures forall c :: c in ControllersOf(t) && c.currentTask != null ==> c.currentTask.Cancelled()
    {
      var list := ControllersOf(t);
      var i := 0;
      while i < |list|
        invariant 0 <= i <= |list|
        invariant forall j :: 0 <= j < i && list[j].currentTask != null ==> list[j].currentTask.Cancelled()
      {
        list[i].Cancel();
        i := i + 1;
      }
    }

    /** The owner's worker takes its next job; an `AwaitTask` cancelled while queued ends at once. */
    method WorkerTake(t: Target)
      requires t in executors && executors[t].running.None? && executors[t].queue != []
      modifies this`executors
      ensures var e := old(executors[t]); var job := e.queue[0];
              executors == old(executors)[t := e.(queue := e.queue[1..],
                running := if job.TaskJob? && job.task.isCancelled then None else Some(Running(job, 0)))]
    {
      var e := executors[t];
      var job := e.queue[0];
      executors := executors[t := e.(queue := e.queue[1..],
        running := if job.TaskJob? && job.task.isCancelled then None else Some(Running(job, 0)))];
    }

    /** The bare closure of `awaitWithProgress` publishes its next report: posted whatever was cancelled. */
    method WorkerPublish(t: Target)
      requires t in executors && executors[t].running.Some?
      requires executors[t].running.value.published < |executors[t].running.value.job.Reports()|
      modifies this`uiQueue, this`executors
      ensures var e := old(executors[t]); var r := e.running.value;
              && executors == old(executors)[t := e.(running := Some(Running(r.job, r.published + 1)))]
              && r.job.ProgressJob?
              && uiQueue == old(uiQueue) + [ProgressMessage(r.job.controller, r.job.work.onProgress, r.job.work.reports[r.published])]
    {
      var e := executors[t];
      var r := e.running.value;
      match r.job
      case TaskJob(_) =>
        assert false;
      case ProgressJob(c, work, _) =>
        uiQueue := uiQueue + [ProgressMessage(c, work.onProgress, work.reports[r.published])];
        executors := executors[t := e.(running := Some(Running(r.job, r.published + 1)))];
    }

    /**
     * The work function has returned or thrown: an `AwaitTask` checks its flag again and
     * posts only through the machine and controller it still holds; the bare closure of
     * `awaitWithProgress` always posts.
     */
    method WorkerFinish(t: Target)
      requires t in executors && executors[t].running.Some?
      requires executors[t].running.value.published == |executors[t].running.value.job.Reports()|
      modifies this`uiQueue, this`executors
      ensures executors == old(executors)[t := old(executors[t]).(running := None)]
      ensures uiQueue == old(uiQueue) + CompletionPost(old(executors[t].running.value.job))
    {
      var e := executors[t];
      var job := e.running.value.job;
      executors := executors[t := e.(running := None)];
      match job
      case TaskJob(task) =>
        if task.isCancelled {
          return;
        }
        if task.machine.Some? && task.asyncController != null {
          uiQueue := uiQueue + [OutcomeMessage<AsyncController>(task.asyncController, task.machine.value, task.outcome)];
        }
      case ProgressJob(c, work, k) =>
        uiQueue := uiQueue + [OutcomeMessage(c, k, work.outcome)];
    }

    /** The run of the body that handling the message resumes, if it resumes one. */
    ghost function ResumedRun(m: Message<AsyncController>): Option<Run>
      reads m.controller, m.controller.target.Objects()
    {
      if !m.controller.IsAlive() then None
      else match m
        case ValueMessage(c, k, v) => Some(Resume(c.body, k, WithValue(v)))
        case ExceptionMessage(c, k, e) =>
          if c.errorHandler.Some? then None else Some(Resume(c.body, k, WithException(e)))
        case ProgressMessage(_, _, _) => None
    }

    /** What handling the message adds to the log. */
    ghost function Reaction(m: Message<AsyncController>): seq<Event>
      reads m.controller, m.controller.target.Objects()
    {
      if !m.controller.IsAlive() then []
      else match m
        case ValueMessage(c, k, v) => ValueDelivery(c.body, k, v)
        case ExceptionMessage(c, k, e) => ExceptionDelivery(c.body, k, e, c.errorHandler)
        case ProgressMessage(_, handler, report) => [ProgressShown(handler, report)]
    }

    /** `machine.resume(value)` or `machine.resumeWithException(e)` on the UI thread. */
    method ResumeWith(c: AsyncController, k: Continuation, input: Input)
      modifies this`executors, this`log, c`currentTask
      ensures var r := Resume(c.body, k, input);
              && log == old(log) + r.events + (if r.stop.Threw? then [Crashed(Raw(r.stop.exc))] else [])
              && (r.stop.Suspended? ==>
                    exists job :: && SubmittedAt(c, r.stop.at, job)
                                  && executors == Enqueued(old(executors), c.target, job)
                                  && (job.TaskJob? ==> fresh(job.task) && c.currentTask == job.task)
                                  && (job.ProgressJob? ==> c.currentTask == old(c.currentTask)))
              && (!r.stop.Suspended? ==> executors == old(executors) && c.currentTask == old(c.currentTask))
      ensures c.currentTask == old(c.currentTask) || fresh(c.currentTask)
    {
      var r := Resume(c.body, k, input);
      log := log + r.events;
      match r.stop
      case Suspended(at) =>
        var job := AwaitAt(c, at);
      case Completed =>
      case Threw(exc) => log := log + [Crashed(Raw(exc))];
    }

    /**
     * The main looper hands the oldest message to its controller's `uiHandler`, which runs
     * it only if the owner is alive now. Nothing here ever sets `currentTask` back to null.
     */
    method HandleNextMessage()
      requires uiQueue != []
      modifies this`uiQueue, this`executors, this`log, uiQueue[0].controller`currentTask
      ensures uiQueue == old(uiQueue[1..])
      ensures log == old(log) + old(Reaction(uiQueue[0]))
      ensures var c := old(uiQueue[0]).controller; var run := old(ResumedRun(uiQueue[0]));
              && (run.Some? && run.value.stop.Suspended? ==>
                    exists job :: && SubmittedAt(c, run.value.stop.at, job)
                                  && executors == Enqueued(old(executors), c.target, job)
                                  && (job.TaskJob? ==> fresh(job.task) && c.currentTask == job.task)
                                  && (job.ProgressJob? ==> c.currentTask == old(c.currentTask)))
              && (!(run.Some? && run.value.stop.Suspended?) ==> executors == old(executors) && c.currentTask == old(c.currentTask))
              && (c.currentTask == old(c.currentTask) || fresh(c.currentTask))
    {
      var m := uiQueue[0];
      uiQueue := uiQueue[1..];
      var c := m.controller;
      if !c.IsAlive() {
        return;
      }
      match m
      case ProgressMessage(_, handler, report) =>
        log := log + [ProgressShown(handler, report)];
      case ValueMessage(_, k, v) =>
        ResumeWith(c, k, WithValue(v));
      case ExceptionMessage(_, k, e) =>
        if c.errorHandler.Some? {
          log := log + [ErrorHandled(c.errorHandler.value, Raw(e))];
        } else {
          ResumeWith(c, k, WithException(e));
        }
    }
  }
}
