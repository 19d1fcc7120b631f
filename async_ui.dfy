/**
 * The `asyncUI` controllers of coroutineandroid, metaroutine and tube. The three are the
 * same program except for `isAlive`: each package has its own file-level single-thread
 * executor that runs every closure submitted by that package's controllers, each closure
 * posts its progress reports and then its result or failure, and every post runs on the main looper only if the controller's owner is alive
 * at that moment. Nothing is ever cancelled and there is no finally handler.
 */
module AsyncUi {
  import opened Optional
  import opened Script
  import opened Owners
  import opened LegacyRules

  /** Which package the controller comes from; they differ only in `isAlive`. */
  datatype Version = CoroutineAndroid | Metaroutine | Tube

  class AsyncController {
    const version: Version
    const activity: Activity?
    const fragment: Fragment?
    const body: Body
    var errorHandler: Option<HandlerId>

    /** `AsyncController(activity, fragment)`: either slot, both, or neither may be set. */
    constructor (version: Version, activity: Activity?, fragment: Fragment?, body: Body)
      ensures this.version == version && this.activity == activity && this.fragment == fragment
      ensures this.body == body && errorHandler.None?
    {
      this.version := version;
      this.activity := activity;
      this.fragment := fragment;
      this.body := body;
      errorHandler := None;
    }

    /** `isAlive()`, as each package writes it, evaluated when a post runs. */
    function IsAlive(): bool
      reads activity, fragment
    {
      var a := ActivityOf(activity);
      var f := FragmentOf(fragment);
      if version.Tube? then AliveOrLive(a, f) else AliveOrDead(a, f)
    }

    /** `onError`: the handler is overwritten, so the last registration wins. */
    method OnError(handler: HandlerId)
      modifies this`errorHandler
      ensures errorHandler == Some(handler)
    {
      errorHandler := Some(handler);
    }
  }

  /** A closure submitted by `await` or `awaitWithProgress`, with the `machine` it resumes. */
  datatype Job = Job(controller: AsyncController, work: Work, machine: Continuation)

  /** The closure that the await at step `at` of the controller's body submits. */
  function JobAt(controller: AsyncController, at: nat): Job
    requires at < |controller.body| && controller.body[at].Await?
  {
    Job(controller, controller.body[at].work, ContinuationAt(controller.body, at))
  }

  /** The queue of each package's executor (empty until its first submission), the main looper's queue, and what has been observed. */
  class AsyncUiRuntime {
    var executors: map<Version, seq<Job>>
    var uiQueue: seq<Message<AsyncController>>
    var log: seq<Event>

    constructor ()
      ensures executors == map[] && uiQueue == [] && log == []
    {
      executors, uiQueue, log := map[], [], [];
    }

    /** The queue of the package's file-level executor. */
    function QueueOf(v: Version): seq<Job>
      reads this`executors
    {
      if v in executors then executors[v] else []
    }

    /** `await(f, machine)` / `awaitWithProgress(f, p, machine)`: submit one closure to the package's executor. */
    method AwaitAt(controller: AsyncController, at: nat)
      requires at < |controller.body| && controller.body[at].Await?
      modifies this`executors
      ensures executors == old(executors)[controller.version := old(QueueOf(controller.version)) + [JobAt(controller, at)]]
    {
      executors := executors[controller.version := QueueOf(controller.version) + [JobAt(controller, at)]];
    }

    /**
     * `asyncUI` (on an Activity, on a Fragment, or on neither): create the controller and
     * start the body with `resume(Unit)`, which runs it up to its first await before the
     * controller is returned. An exception thrown before that await leaves `asyncUI`.
     */
    method AsyncUI(version: Version, activity: Activity?, fragment: Fragment?, body: Body)
      returns (controller: AsyncController, rethrown: Option<Exc>)
      modifies this`executors, this`log
      ensures fresh(controller) && controller.version == version && controller.body == body
      ensures controller.activity == activity && controller.fragment == fragment && controller.errorHandler.None?
      ensures var r := Segment(body, 0);
              && log == old(log) + r.events
              && rethrown == (if r.stop.Threw? then Some(r.stop.exc) else None)
              && (r.stop.Suspended? ==> executors == old(executors)[version := old(QueueOf(version)) + [JobAt(controller, r.stop.at)]])
              && (!r.stop.Suspended? ==> executors == old(executors))
    {
      controller := new AsyncController(version, activity, fragment, body);
      var r := Segment(body, 0);
      log := log + r.events;
      rethrown := None;
      match r.stop
      case Suspended(at) => AwaitAt(controller, at);
      case Completed =>
      case Threw(e) => rethrown := Some(e);
    }

    /**
     * The worker of package `v` runs its oldest closure from start to end. It is the only
     * worker of that package, and nothing the main looper does posts, so within the package
     * running it in one step hides no interleaving.
     */
    method RunNextJob(v: Version)
      requires QueueOf(v) != []
      modifies this`executors, this`uiQueue
      ensures executors == old(executors)[v := old(QueueOf(v)[1..])]
      ensures var job := old(QueueOf(v)[0]);
              uiQueue == old(uiQueue) + JobPosts(job.controller, job.work, job.machine)
    {
      var job := executors[v][0];
      executors := executors[v := executors[v][1..]];
      uiQueue := uiQueue + JobPosts(job.controller, job.work, job.machine);
    }

    /** The run of the body that handling the message resumes, if it resumes one. */
    ghost function ResumedRun(m: Message<AsyncController>): Option<Run>
      reads m.controller, m.controller.activity, m.controller.fragment
    {
      if !m.controller.IsAlive() then None
      else match m
        case ValueMessage(c, k, v) => Some(Resume(c.body, k, WithValue(v)))
        case ExceptionMessage(c, k, e) =>
          if c.errorHandler.Some? then None else Some(Resume(c.body, k, WithException(e)))
        case ProgressMessage(_, _, _) => None
    }

    /** What handling the message adds to the log. */
    ghost function Reaction(m: Message<AsyncController>): seq<Event>
      reads m.controller, m.controller.activity, m.controller.fragment
    {
      if !m.controller.IsAlive() then []
      else match m
        case ValueMessage(c, k, v) => ValueDelivery(c.body, k, v)
        case ExceptionMessage(c, k, e) => ExceptionDelivery(c.body, k, e, c.errorHandler)
        case ProgressMessage(_, handler, report) => [ProgressShown(handler, report)]
    }

    /**
     * The main looper runs the oldest post, which does its work only if the owner is alive
     * now (coroutineandroid's `if (isAlive())`, metaroutine's `runOnUiIfAlive`, tube's gated
     * `uiHandler`). A resumed body that reaches another await submits its next closure.
     */
    method HandleNextMessage()
      requires uiQueue != []
      modifies this`uiQueue, this`executors, this`log
      ensures uiQueue == old(uiQueue[1..])
      ensures log == old(log) + old(Reaction(uiQueue[0]))
      ensures var c := old(uiQueue[0]).controller; var run := old(ResumedRun(uiQueue[0]));
              && (run.Some? && run.value.stop.Suspended? ==>
                    executors == old(executors)[c.version := old(QueueOf(c.version)) + [JobAt(c, run.value.stop.at)]])
              && (!(run.Some? && run.value.stop.Suspended?) ==> executors == old(executors))
    {
      var m := uiQueue[0];
      uiQueue := uiQueue[1..];
      var c := m.controller;
      if !c.IsAlive() {
        return;
      }
      match m
      case ProgressMessage(_, handler, report) =>
        log := log + [ProgressShown(handler, report)];
      case ValueMessage(_, k, v) =>
        ResumeWith(c, k, WithValue(v));
      case ExceptionMessage(_, k, e) =>
        if c.errorHandler.Some? {
          log := log + [ErrorHandled(c.errorHandler.value, Raw(e))];
        } else {
          ResumeWith(c, k, WithException(e));
        }
    }

    /** `machine.resume(value)` or `machine.resumeWithException(e)` on the UI thread. */
    method ResumeWith(c: AsyncController, k: Continuation, input: Input)
      modifies this`executors, this`log
      ensures var r := Resume(c.body, k, input);
              && log == old(log) + r.events + (if r.stop.Threw? then [Crashed(Raw(r.stop.exc))] else [])
              && (r.stop.Suspended? ==> executors == old(executors)[c.version := old(QueueOf(c.version)) + [JobAt(c, r.stop.at)]])
              && (!r.stop.Suspended? ==> executors == old(executors))
    {
      var r := Resume(c.body, k, input);
      log := log + r.events;
      match r.stop
      case Suspended(at) => AwaitAt(c, at);
      case Completed =>
      case Threw(exc) => log := log + [Crashed(Raw(exc))];
    }
  }

  /**
   * coroutineandroid and metaroutine: a controller made by the receiver-less `asyncUI` is
   * never alive, so none of its posts does anything and its body never runs past the
   * first await.
   */
  lemma OwnerlessNeverResumes(rt: AsyncUiRuntime, m: Message<AsyncController>)
    requires m.controller.activity == null && m.controller.fragment == null && !m.controller.version.Tube?
    ensures rt.Reaction(m) == [] && rt.ResumedRun(m).None?
  {
  }

  /** tube: a controller without an owner is always alive, so every post does its work. */
  lemma OwnerlessTubeAlwaysDelivers(rt: AsyncUiRuntime, m: Message<AsyncController>)
    requires m.controller.activity == null && m.controller.fragment == null && m.controller.version.Tube?
    ensures m.ValueMessage? ==> rt.Reaction(m) == ValueDelivery(m.controller.body, m.machine, m.value)
    ensures m.ExceptionMessage? ==>
              rt.Reaction(m) == ExceptionDelivery(m.controller.body, m.machine, m.exc, m.controller.errorHandler)
  {
  }
}
