# AsyncAwait in Dafny

A model of the coroutine controllers of the AsyncAwait library for Android. The library has
five versions. Each one starts a `suspend` body on the UI thread and runs it up to its first
`await`. The awaited function runs on a background executor, and its result, failure or
progress comes back to the main looper. There, each closure runs only if the controller's
owner (an Activity, a Fragment or any other object) is still alive.

The five versions, one module each (plus shared rules):

- `Async.kt`: the canonical `async`/`await` controller, with cancelable tasks, per-owner
  executors and registries, `onError`, `finally`, and the global `onRunningCoroutine` and
  `onIdleCoroutines` hooks. Modelled by modules `AsyncAwait` and `AsyncRules`.
- The earlier `asyncawait` `AsyncUi.kt`. Only a plain `await` is cancelable, and the error
  handler takes priority over a try/catch in the body. Modelled by module `AsyncAwaitUi`.
- The `coroutineandroid`, `metaroutine` and `tube` `AsyncUi.kt` files. Each has its own
  file-level single-thread executor, and none has cancellation. They differ only in `isAlive`: an owner-less controller is
  never alive in the first two and always alive in `tube`. Modelled by module `AsyncUi`.
  Modules `LegacyRules` and `Owners` hold the rules these versions share.

Threads are replaced by explicit FIFO queues:

- Each owner's single-thread executor is a queue of tasks, with at most one task inside
  `run()`.
- The main looper is a queue of posted closures.
- A scheduler may interleave freely: a worker step (take a task, publish one progress report,
  finish), handling the next UI message, and UI-thread calls such as `cancelAll`, `onError`
  or `Activity.finish`.

The coroutine body is a script of steps (module `Script`): a synchronous statement, a forward
jump, a `throw`, or an `await` with the outcome of its background function. An `await` also
records whether a try/catch surrounds it, and the UI-thread stack at the call. Resuming a
suspended body is a pure function, `Script.Resume`. What an observer of the UI thread sees is
an event log:

- what the body does;
- progress shown;
- the error and finally handlers;
- the two global hooks;
- exceptions that leave the UI thread uncaught.

Where the versions and their tests disagree, each module follows its own file's code:

- `Async.kt` raises a failure inside the body first. A try/catch around the `await` wins over
  `onError`, and an uncaught failure reaches `onError` wrapped in `AsyncException`.
- The `AsyncUi.kt` versions hand the raw exception to `onError` and never resume the body.
- `HandleExceptionTest.kt` expects the second behaviour from `Async.kt` as well. The model
  follows the code: see `LegacyRules.VersionsDisagreeOnCaughtFailure`.

Two behaviours of `Async.kt` as written are modelled faithfully:

- The success closure posted by `run()` reads the task's `continuation` field when it runs,
  not when it is posted. A task cancelled between the post and the handling therefore does
  not resume the body. The closure still clears `currentTask` and runs `applyFinallyBlock`, so
  the finally handler and the idle hook fire (`AsyncRules.CancelledDeliveryStillRunsFinally`).
- The failure closure captures the continuation when it is posted, so a `cancel()` after that
  post does not stop it.

## Model

| member | source | states |
|---|---|---|
| StackTrace.Drop | asyncawait/src/main/kotlin/co/metalab/asyncawait/Async.kt:248 | Kotlin's `drop(n)` never fails: the result is `n` frames shorter, or empty when `n` exceeds the length |
| StackTrace.DropUntilMarkerFindsFirst | asyncawait/src/main/kotlin/co/metalab/asyncawait/Async.kt:247 | `dropWhile { it.methodName != "keepAwaitCallerStackTrace" }` keeps the suffix that starts at the first marker frame, and is empty when no frame is a marker |
| StackTrace.RefineSpec | asyncawait/src/main/kotlin/co/metalab/asyncawait/Async.kt:245-250 | the refined trace is everything after the first marker frame and the frame after it; it is empty when the marker is absent or too close to the end |
| Script.Segment | asyncawait/src/main/kotlin/co/metalab/asyncawait/Async.kt:97-111 | a synchronous run of the body only runs statements; it stops at an `await` at or after its start, at a `throw` the body contains, or at the end |
| Script.Resume | asyncawait/src/main/kotlin/co/metalab/asyncawait/Async.kt:148-155 | resuming at an await produces only body events; a value is received first; an exception with no surrounding try/catch escapes at once; a further suspension lies strictly after the resumed await |
| Script.SegmentIgnoresLaterSteps | asyncawait/src/main/kotlin/co/metalab/asyncawait/Async.kt:97-111 | nothing after the await where a run suspends takes part in that run: two bodies that agree up to that step run identically |
| Owners.TubeIsKindTable | tubelib/src/main/kotlin/co/metalab/tube/AsyncUi.kt:80-88 | tube's two-slot `isAlive` equals Async.kt's type table (Activity: not finishing; Fragment: has an activity and is not detached; otherwise alive) applied to the owner it consults |
| Owners.DeadDefaultVersusLiveDefault | app/src/main/kotlin/coroutineandroid/AsyncUi.kt:86-94 | coroutineandroid/metaroutine's `isAlive` is false for an owner-less controller where tube's is true; they agree whenever an activity is set, or a fragment's context and activity presence agree; only a controller with an owner can be alive |
| AsyncRules.FinallyFiresOnlyWhenDrained | asyncawait/src/main/kotlin/co/metalab/asyncawait/Async.kt:312-317 | after a value is delivered, the finally handler fires if and only if one is registered and the resumed body runs to its end; a body that awaits again defers it, one that throws skips it |
| AsyncRules.UncaughtExceptionIsWrapped | asyncawait/src/main/kotlin/co/metalab/asyncawait/Async.kt:205-218 | an exception not caught by the body reaches the error handler as `AsyncException(cause, refined trace)` and the finally events follow; with no error handler the wrapper leaves the UI thread and finally is skipped |
| AsyncRules.CaughtExceptionBypassesErrorHandler | asyncawait/src/main/kotlin/co/metalab/asyncawait/Async.kt:209-216 | an exception raised inside a try/catch is first caught by the body, and when the handler code runs to the end the finally events follow the body's events |
| AsyncRules.CancelledDeliveryStillRunsFinally | asyncawait/src/main/kotlin/co/metalab/asyncawait/Async.kt:312-317 | a success closure whose task lost its continuation resumes nothing but still produces exactly the finally events |
| AsyncAwait.CancelableTask.constructor | asyncawait/src/main/kotlin/co/metalab/asyncawait/Async.kt:332-347 | a new `AwaitTask`/`AwaitWithProgressTask` is not cancelled and holds its controller, its continuation and, for progress work, its progress handler |
| AsyncAwait.CancelableTask.Cancel | asyncawait/src/main/kotlin/co/metalab/asyncawait/Async.kt:299-303 | after `cancel()` (with the progress override at lines 357-360) the flag is set and controller, continuation and progress handler are released; the new state does not depend on the old one, so a second call changes nothing |
| AsyncAwait.AsyncController.constructor | asyncawait/src/main/kotlin/co/metalab/asyncawait/Async.kt:120-136 | a new controller has no handlers and no task in flight |
| AsyncAwait.AsyncController.OnError | asyncawait/src/main/kotlin/co/metalab/asyncawait/Async.kt:188-191 | the error handler is replaced (the last registration wins) and the controller itself is returned for chaining |
| AsyncAwait.AsyncController.Finally | asyncawait/src/main/kotlin/co/metalab/asyncawait/Async.kt:197-199 | the finally handler is replaced |
| AsyncAwait.AsyncController.Cancel | asyncawait/src/main/kotlin/co/metalab/asyncawait/Async.kt:201-203 | the task in flight, if any, ends up cancelled; with none, nothing may change |
| AsyncAwait.NatToString | asyncawait/src/main/kotlin/co/metalab/asyncawait/Async.kt:277 | the thread counter is printed as a non-empty string of decimal digits whose decimal value is the counter, longer than one digit exactly from 10 on |
| AsyncAwait.Executor.Submit | asyncawait/src/main/kotlin/co/metalab/asyncawait/Async.kt:273-279 | submitting keeps the single-thread invariant: the task joins the end of the queue, the running task is untouched, an existing thread is kept, and the first submission creates the one thread `<name>-1` |
| AsyncAwait.NewExecutor | asyncawait/src/main/kotlin/co/metalab/asyncawait/Async.kt:267 | a new executor has the owner's factory name, no thread yet, an empty queue and nothing running |
| AsyncAwait.ProgressPosts | asyncawait/src/main/kotlin/co/metalab/asyncawait/Async.kt:349-355 | a run of reports posts one message per report while the task holds both its progress handler and its controller, and none once either is released |
| AsyncAwait.ProgressPostsInOrder | asyncawait/src/main/kotlin/co/metalab/asyncawait/Async.kt:349-355 | the i-th progress message carries the i-th published report to the handler captured with it; after `cancel()` publishing posts nothing |
| AsyncAwait.TaskPosts | asyncawait/src/main/kotlin/co/metalab/asyncawait/Async.kt:305-327 | a cancelled task posts nothing; a live task whose function returns posts its result last, after its progress reports |
| AsyncAwait.AsyncRuntime.SetOnRunningCoroutine | asyncawait/src/main/kotlin/co/metalab/asyncawait/Async.kt:25-29 | the hook is stored, and fires at once exactly when some controller is registered |
| AsyncAwait.AsyncRuntime.SetOnIdleCoroutines | asyncawait/src/main/kotlin/co/metalab/asyncawait/Async.kt:30-34 | the hook is stored, and fires at once exactly when no controller is registered |
| AsyncAwait.AsyncRuntime.KeepCoroutineForCancelPurpose | asyncawait/src/main/kotlin/co/metalab/asyncawait/Async.kt:254-262 | exactly one controller is appended to its owner's list (created on first use), and every other owner's list is unchanged |
| AsyncAwait.AsyncRuntime.GetExecutorService | asyncawait/src/main/kotlin/co/metalab/asyncawait/Async.kt:264-271 | the owner's executor is created on first use with the name `AsyncAwait-<simple name>` and returned unchanged afterwards; no other owner's executor changes |
| AsyncAwait.AsyncRuntime.AwaitAt | asyncawait/src/main/kotlin/co/metalab/asyncawait/Async.kt:148-180 | `await`: the running hook fires, the caller's stack is kept, and a fresh uncancelled task holding the controller and the continuation becomes `currentTask` and is submitted to the owner's executor |
| AsyncAwait.AsyncRuntime.SubmitTo | asyncawait/src/main/kotlin/co/metalab/asyncawait/Async.kt:153 | `target.getExecutorService().submit(task)` queues the task on the owner's memoised executor, keeping every executor single-threaded |
| AsyncAwait.AsyncRuntime.Async | asyncawait/src/main/kotlin/co/metalab/asyncawait/Async.kt:50-111 | `async` registers one new controller, runs the body synchronously to its first await or to its end, and rethrows an exception that escapes before any await; when it suspends, the controller keeps that await's caller stack and holds the fresh task, which is queued on the owner's executor; otherwise nothing is submitted and the stack stays empty |
| AsyncAwait.AsyncRuntime.CancelAll | asyncawait/src/main/kotlin/co/metalab/asyncawait/Async.kt:284-290 | every task in flight of every controller registered for the owner ends up cancelled; only those tasks may change |
| AsyncAwait.AsyncRuntime.WorkerTake | asyncawait/src/main/kotlin/co/metalab/asyncawait/Async.kt:305-307 | the worker takes the oldest task; a task cancelled while queued returns at once; every executor stays single-threaded |
| AsyncAwait.AsyncRuntime.WorkerPublish | asyncawait/src/main/kotlin/co/metalab/asyncawait/Async.kt:350-353 | a published report is posted only while the task holds its progress handler and its controller, so after `cancel()` publishing posts nothing |
| AsyncAwait.AsyncRuntime.WorkerFinish | asyncawait/src/main/kotlin/co/metalab/asyncawait/Async.kt:309-326 | when the function returns or throws, a task cancelled meanwhile posts nothing; otherwise it posts the success closure, or the failure closure with the continuation it holds now |
| AsyncAwait.AsyncRuntime.RunNextTask | asyncawait/src/main/kotlin/co/metalab/asyncawait/Async.kt:305-327 | a task run from start to end with nothing interleaved posts its progress reports in order and then its outcome, or nothing when cancelled; the executor is left with the rest of its queue and its one thread |
| AsyncAwait.AsyncRuntime.RunTakenTask | asyncawait/src/main/kotlin/co/metalab/asyncawait/Async.kt:309-326 | a task that was live when taken posts its progress reports in order and then its completion post, and the worker is free again |
| AsyncAwait.AsyncRuntime.PublishAll | asyncawait/src/main/kotlin/co/metalab/asyncawait/Async.kt:349-355 | the work function publishes all of its reports in order, each posted by the rule of `ProgressPost` |
| AsyncAwait.AsyncRuntime.ApplyFinallyBlock | asyncawait/src/main/kotlin/co/metalab/asyncawait/Async.kt:220-227 | the finally handler and then the idle hook fire exactly when no task is in flight; otherwise nothing happens |
| AsyncAwait.AsyncRuntime.DeliverValue | asyncawait/src/main/kotlin/co/metalab/asyncawait/Async.kt:312-317 | the success closure produces exactly the events of `AsyncRules.ValueDelivery`; if the body awaits again, `currentTask` holds that await's fresh task and the controller keeps that await's caller stack; otherwise `currentTask` is null and the stack is unchanged |
| AsyncAwait.AsyncRuntime.DeliverException | asyncawait/src/main/kotlin/co/metalab/asyncawait/Async.kt:205-218 | the failure closure produces exactly the events of `AsyncRules.ExceptionDelivery`, with the refined trace of the await the body was suspended at; if the body awaits again, `currentTask` holds that await's fresh task and the controller keeps that await's caller stack; otherwise `currentTask` is null and the stack is unchanged |
| AsyncAwait.AsyncRuntime.HandleEscaped | asyncawait/src/main/kotlin/co/metalab/asyncawait/Async.kt:211-216 | an escaped exception goes to the error handler and `applyFinallyBlock` follows, or leaves the UI thread uncaught with no finally |
| AsyncAwait.AsyncRuntime.HandleNextMessage | asyncawait/src/main/kotlin/co/metalab/asyncawait/Async.kt:125-132 | the oldest message is removed and runs only if its owner is alive now; a dead owner's message changes nothing else (no resume, no handler, `currentTask` and the caller stack kept); a delivery that suspends the body again stores the next await's task and caller stack |
| AsyncAwaitScenarios.RunFinallyBlock | asyncawait/src/test/kotlin/co/metalab/asyncawait/FinallyTest.kt:21-45 | the trace "start", "+O", "K", "+continue", then finally; the finally handler is deferred while the body awaits again |
| AsyncAwaitScenarios.RunFinallyBlockAfterCatching | asyncawait/src/test/kotlin/co/metalab/asyncawait/FinallyTest.kt:47-68 | the trace "start", "+try", caught, "+catch", "+continue", then finally; the statement after the failing await never runs |
| AsyncAwaitScenarios.RunFinallyBlockAfterOnError | asyncawait/src/test/kotlin/co/metalab/asyncawait/FinallyTest.kt:70-88 | the trace "start", the error handler with the wrapped exception, then finally |
| AsyncAwaitScenarios.StartFailingAwait | asyncawait/src/test/kotlin/co/metalab/asyncawait/FinallyTest.kt:70-88 | with both handlers registered, the body says "start" and suspends at the failing await, keeping that await's caller stack, and the worker posts the failure |
| AsyncAwaitScenarios.OnErrorGetsTheAwaitTrace | asyncawait/src/test/kotlin/co/metalab/asyncawait/FinallyTest.kt:70-88 | driven through the runtime, the error handler receives the exception wrapped with the refined caller stack of the await, and then the finally handler runs |
| AsyncAwaitScenarios.StartThenFinishActivity | asyncawait/src/test/kotlin/co/metalab/asyncawait/AsyncTest.kt:159-170 | the body says "O" and suspends; once the Activity is finishing, the worker still posts "K" |
| AsyncAwaitScenarios.DoNotDeliverWhenActivityFinishing | asyncawait/src/test/kotlin/co/metalab/asyncawait/AsyncTest.kt:159-174 | on a finishing Activity the result is dropped: the log stays "O" and no message is left |
| LegacyRules.JobPosts | tubelib/src/main/kotlin/co/metalab/tube/AsyncUi.kt:58-70 | a submitted closure posts one message per progress report plus one outcome message |
| LegacyRules.JobPostsOneOutcomeLast | library/src/main/kotlin/co/metalab/metaroutine/AsyncUi.kt:55-68 | exactly the last post carries the result or failure (a value if and only if the work returned) with the captured machine; every earlier post is a progress report in publication order |
| LegacyRules.ErrorHandlerTakesPriority | asyncawait/src/main/kotlin/co/metalab/asyncawait/AsyncUi.kt:162-164 | with an error handler, it alone receives the raw exception and the body is never resumed; without one, a surrounding try/catch catches it, or it leaves the UI thread uncaught |
| LegacyRules.VersionsDisagreeOnCaughtFailure | tubelib/src/main/kotlin/co/metalab/tube/AsyncUi.kt:76-78 | for a failure inside a try/catch with an error handler registered, Async.kt lets the body catch it while the AsyncUi.kt versions give it to the handler and run no body code |
| AsyncAwaitUi.AwaitTask.constructor | asyncawait/src/main/kotlin/co/metalab/asyncawait/AsyncUi.kt:210-216 | a new `AwaitTask` is not cancelled and holds its controller and machine |
| AsyncAwaitUi.AwaitTask.Cancel | asyncawait/src/main/kotlin/co/metalab/asyncawait/AsyncUi.kt:218-222 | after `cancel()` the flag is set and controller and machine are released; a second call changes nothing |
| AsyncAwaitUi.AsyncController.constructor | asyncawait/src/main/kotlin/co/metalab/asyncawait/AsyncUi.kt:92-105 | a new controller has no error handler and no task |
| AsyncAwaitUi.AsyncController.OnError | asyncawait/src/main/kotlin/co/metalab/asyncawait/AsyncUi.kt:154-156 | the error handler is replaced |
| AsyncAwaitUi.AsyncController.Cancel | asyncawait/src/main/kotlin/co/metalab/asyncawait/AsyncUi.kt:158-160 | the last plain await's task, if any, ends up cancelled |
| AsyncAwaitUi.CompletionPost | asyncawait/src/main/kotlin/co/metalab/asyncawait/AsyncUi.kt:228-243 | a cancelled `AwaitTask` posts no outcome, while the closure of `awaitWithProgress` always posts its outcome |
| AsyncAwaitUi.AsyncRuntime.KeepCoroutineForCancelPurpose | asyncawait/src/main/kotlin/co/metalab/asyncawait/AsyncUi.kt:180-188 | exactly one controller is appended to its owner's list (created on first use) |
| AsyncAwaitUi.AsyncRuntime.Submit | asyncawait/src/main/kotlin/co/metalab/asyncawait/AsyncUi.kt:190-196 | the owner's executor, created on first use, queues the job at its end; nothing else changes |
| AsyncAwaitUi.AsyncRuntime.AwaitAt | asyncawait/src/main/kotlin/co/metalab/asyncawait/AsyncUi.kt:117-147 | a plain await stores a fresh uncancelled task in `currentTask` and submits it; `awaitWithProgress` submits a closure that nothing holds and leaves `currentTask` as it was |
| AsyncAwaitUi.AsyncRuntime.Async | asyncawait/src/main/kotlin/co/metalab/asyncawait/AsyncUi.kt:31-82 | `async` registers one controller and starts the body with `resume(Unit)`, which runs it to its first await or its end; an early exception leaves `async`; on suspension exactly that await's job is queued on the owner's executor, and a plain await's fresh task is held in `currentTask` |
| AsyncAwaitUi.AsyncRuntime.CancelAll | asyncawait/src/main/kotlin/co/metalab/asyncawait/AsyncUi.kt:202-207 | every stored task of the owner's controllers ends up cancelled; only those tasks may change |
| AsyncAwaitUi.AsyncRuntime.WorkerTake | asyncawait/src/main/kotlin/co/metalab/asyncawait/AsyncUi.kt:224-226 | the worker takes the oldest job; an `AwaitTask` cancelled while queued ends at once, a progress closure always runs |
| AsyncAwaitUi.AsyncRuntime.WorkerPublish | asyncawait/src/main/kotlin/co/metalab/asyncawait/AsyncUi.kt:139-141 | only the closure of `awaitWithProgress` publishes, and each report is posted whatever has been cancelled |
| AsyncAwaitUi.AsyncRuntime.WorkerFinish | asyncawait/src/main/kotlin/co/metalab/asyncawait/AsyncUi.kt:228-243 | on completion a job posts exactly its `CompletionPost` |
| AsyncAwaitUi.AsyncRuntime.ResumeWith | asyncawait/src/main/kotlin/co/metalab/asyncawait/AsyncUi.kt:142 | `machine.resume` runs the body to its next await or to its end; an exception escaping it leaves the UI thread; on suspension exactly that await's job is queued on the owner's executor and nothing else changes there, a plain await's fresh task becomes `currentTask`, and `awaitWithProgress` leaves it as it was |
| AsyncAwaitUi.AsyncRuntime.HandleNextMessage | asyncawait/src/main/kotlin/co/metalab/asyncawait/AsyncUi.kt:96-103 | the oldest message runs only if the owner is alive now; a resumed body that awaits again queues exactly that await's job on the owner's executor, with a plain await's fresh task in `currentTask`; `currentTask` is never set back to null |
| AsyncUi.AsyncController.constructor | app/src/main/kotlin/coroutineandroid/AsyncUi.kt:33-36 | the controller keeps its activity and fragment slots (either, both or neither) and starts with no error handler |
| AsyncUi.AsyncController.OnError | app/src/main/kotlin/coroutineandroid/AsyncUi.kt:82-84 | the error handler is replaced (the last registration wins) |
| AsyncUi.AsyncUiRuntime.AwaitAt | library/src/main/kotlin/co/metalab/metaroutine/AsyncUi.kt:40-68 | `await`/`awaitWithProgress` submit one closure to the executor of the controller's own package, after everything already queued there; the other packages' executors are unchanged |
| AsyncUi.AsyncUiRuntime.AsyncUI | app/src/main/kotlin/coroutineandroid/AsyncUi.kt:25-29 | `asyncUI` creates the controller and runs the body to its first await (submitting it) or its end before returning; an early exception leaves `asyncUI` |
| AsyncUi.AsyncUiRuntime.RunNextJob | app/src/main/kotlin/coroutineandroid/AsyncUi.kt:57-80 | the oldest closure of the package's executor posts its progress reports in order and then its outcome; the other packages' queues are unchanged |
| AsyncUi.AsyncUiRuntime.HandleNextMessage | tubelib/src/main/kotlin/co/metalab/tube/AsyncUi.kt:38-45 | the oldest post runs only if `isAlive()` holds now: progress is shown, a value resumes the body, a failure goes to the error handler or is raised in the body |
| AsyncUi.AsyncUiRuntime.ResumeWith | library/src/main/kotlin/co/metalab/metaroutine/AsyncUi.kt:44-46 | resuming runs the body to its next await (submitting it) or its end; an escaping exception leaves the UI thread |
| AsyncUi.OwnerlessNeverResumes | app/src/main/kotlin/coroutineandroid/AsyncUi.kt:86-94 | in coroutineandroid and metaroutine a controller with no owner is never alive, so handling any of its posts does nothing |
| AsyncUi.OwnerlessTubeAlwaysDelivers | tubelib/src/main/kotlin/co/metalab/tube/AsyncUi.kt:80-88 | in tube a controller with no owner is always alive, so every result and failure is delivered by the shared rules |
| LegacyScenarios.OwnerlessAsyncUI | app/src/main/kotlin/coroutineandroid/AsyncUi.kt:13-15 | the receiver-less `asyncUI` body gets past its await only in tube |
| LegacyScenarios.PostPairProgress | app/src/main/kotlin/coroutineandroid/AsyncUi.kt:57-71 | once the worker has run the closure, the main looper holds the two progress posts and then the result |
| LegacyScenarios.PairProgressThenResult | app/src/main/kotlin/coroutineandroid/AsyncUi.kt:57-71 | on a live Activity each `(curr, max)` report is shown in order, then the body receives the result |
| LegacyScenarios.PackagesHaveTheirOwnExecutors | tubelib/src/main/kotlin/co/metalab/tube/AsyncUi.kt:10 | each package queues on its own executor: tube's worker posts its result while coroutineandroid's earlier closure is still queued |
| LegacyScenarios.SubmitPlainAndProgress | asyncawait/src/main/kotlin/co/metalab/asyncawait/AsyncUi.kt:117-147 | a plain await and an `awaitWithProgress` of one owner queue on its executor in order, and only the first is held in `currentTask` |
| LegacyScenarios.CancelAllSparesProgressWork | asyncawait/src/main/kotlin/co/metalab/asyncawait/AsyncUi.kt:135-147 | after `cancelAll`, the cancelled plain task posts nothing, while the progress closure still posts exactly its report and then its result to its controller |

## Left out

- Threads, `ExecutorService`, `Handler`/`Looper`/`Message`, and the memory semantics of `AtomicBoolean` and `@Volatile` are replaced by FIFO queues and an explicit interleaving of worker steps and UI-message steps. The blocking of an idle worker or looper is a precondition that its queue is non-empty.
- `WeakHashMap` and `WeakReference` become plain maps and sequences: nothing is ever pruned by garbage collection.
- JVM stack frames: `Thread.currentThread().stackTrace` is the `callerStack` of each `Await` step, and only the slicing of `refineUiThreadStackTrace` is modelled.
- The Kotlin coroutine transform (`suspendCoroutine`, `startCoroutine`, `Continuation`) is abstracted as a script of steps. Loops inside the body, and resuming the same continuation twice, are not expressible.
- Generic value types: values, exceptions and progress reports are strings. Nothing enforces coroutineandroid's `(curr, max)` pair against the single value of the other versions.
- After an exception leaves the UI thread (the `Crashed` event), the model keeps stepping; the process dies in reality.
- The older executors' default thread names (`Executors.newSingleThreadExecutor()` without a factory) are not modelled: those executors have no name or thread state.
- AsyncUi.AsyncUiRuntime.RunNextJob: runs a closure of coroutineandroid, metaroutine or tube in one step, without interleaving. Within one package this hides nothing: the package has one worker, and no UI-thread action posts to it or changes what the closure posts. The workers of two different packages run on separate threads, and the model does not let their posts interleave on the main looper.
- Work functions throw only `Exception`. `CancelableTask.run()` in `Async.kt` catches nothing else. Another `Throwable` would escape `run()` and post nothing, so the body would stay suspended. The executor would also replace its dead thread with `<name>-2`. The model has no such throwable, and `AsyncAwait.Executor.Valid` (one thread, named `<name>-1`) relies on that.
- The extension wrappers for Retrofit and Rx, the sample Activities, Fragments and Presenters, the empty `ActivityLifecycleCallbacks`, and the test helpers (`loopUntil`, `AsyncIdlingResource`) are not part of this model.
