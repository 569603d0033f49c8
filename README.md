# libbase, modelled in Dafny

libbase is a Chromium-style C++ "base" library that ships with a Conan recipe. This project models its sequential decision logic and proves properties of that model. Real threads, clocks and the network are not involved: task bodies are ids, and running a task appends a record to a log. The clock reading, process id and thread id are parameters. Thread-local and global state (the current sequence, the sequence-id counter, the handle slot, the trace register) is one object that is passed to whoever uses it.

The components, one Dafny module each:

- **Build options** (`ConanRecipe`): option domains and defaults, removing `module_win` off Windows, fail-fast validation, the dependency list, and the CMake cache variables.
- **Task scheduling**:
  - `MessagePumps`: the FIFO pending list and the rule for handing a task to an executor.
  - `MessageLoops`: the loops that drain the pump.
  - `TaskRunners`: the three ways a post is tagged.
  - `DelayedTasks`: the start-time queue and the release of ready tasks.
  - `Sequences`, `SequenceCheckers`, `SequencedTaskRunnerHandles`: sequence ids, the current sequence, checkers and the handle.
- **Time** (`Deltas`, `Times`, `Ticks`, on `Int64`): int64 microsecond counters. Division truncates toward zero, as in C++, and `static_cast<int>` wraps modulo 2^32.
- **Small state machines**:
  - `WaitableEvents`: manual and automatic reset.
  - `AutoSignallers`, `ScopedClosureRunners`, `AutoResets`: RAII objects; destruction is an explicit `Dispose`.
  - `Barriers`: countdowns.
  - `WeakPtrs`: control blocks as generations of their factory.
- **Callbacks**:
  - `Callbacks`: the implementation tree and what a run calls.
  - `Binding`: arity and signature rules of `Bind`, `BindOnce` and `BindRepeating`.
  - `CallbackObjects`: `OnceCallback` and `RepeatingCallback` as objects.
  - `CallbackComposition`: `Then` and `PostTaskAndReplyWithResult`.
  - `TypeTraits`: type-list slicing.
- **Networking values**:
  - `ResourceRequests`: the request builders.
  - `NetThreads`: the curl result mapping, the capped write buffer, and the pending, active and finished bookkeeping.
- **Tracing**:
  - `TraceArguments`: argument pairing.
  - `TraceEvents`: the per-event JSON writers.
  - `TraceJson`: the whole-file writer.
  - `TraceRegister`: the event buffers, the drop rule and the flush.

Shared helpers: `Wrappers` (Option, Result), `Int64` (fixed-width integers, truncating division), `Text` (concatenation, joining, quoting, decimal output, an output stream) and `Journals` (an append-only record of observable effects).

## Model

Paths are relative to the repository root.

| member | source | states |
|---|---|---|
| ConanRecipe.LookupOption | conanfile.py:11-23 | a name resolves only to a declared option whose text is that name and that exists on this OS |
| ConanRecipe.LookupFindsApplicable | conanfile.py:11-23 | every option that exists on this OS is found under its own name |
| ConanRecipe.ParseBool | conanfile.py:11-23 | an option value is accepted exactly when it is "True" or "False", and it means that boolean |
| ConanRecipe.PrunedDefaultsKeys | conanfile.py:38-40 | after config_options, `module_win` is present iff the OS is Windows, and every other option is always present |
| ConanRecipe.ApplyOverrides | conanfile.py:11-36 | overriding keeps the option set; the only failures are an unknown option and an invalid value |
| ConanRecipe.ApplyOverridesSucceedsIff | conanfile.py:11-23 | resolution succeeds iff every override names an option present on this OS and gives "True" or "False" |
| ConanRecipe.UnnamedOptionsKeepValue | conanfile.py:24-36 | an option no override names keeps its default |
| ConanRecipe.LastOverrideWins | conanfile.py:11-36 | the last override of an option decides its value |
| ConanRecipe.Validate | conanfile.py:42-47 | validation passes iff the OS is Windows, Linux or Macos, ASAN and TSAN are not both on, and C++17 is available; an unsupported OS is reported before the sanitizer conflict |
| ConanRecipe.PackageListMembers | conanfile.py:49-58 | the requirements are glog, then libcurl if module_net, wxwidgets if module_wx, gtest and benchmark if tests: a package is required iff it is glog or its option is on, and every package after glog is switched by its option |
| ConanRecipe.PackageListProperties | conanfile.py:49-58 | glog comes first and once; libcurl iff net, wxwidgets iff wx, gtest and benchmark iff tests; only glog is transitive |
| ConanRecipe.RequiredPackagesProperties | conanfile.py:49-58 | on the resolved options: glog first, once, with transitive headers and libs; libcurl iff module_net; wxwidgets iff module_wx; gtest iff benchmark iff tests |
| ConanRecipe.EmittedIsApplicable | conanfile.py:67-78 | every emitted cache variable mirrors an option that exists on this OS |
| ConanRecipe.CacheVariablesProperties | conanfile.py:67-78 | LIBBASE_BUILD_MODULE_WIN is emitted iff Windows; every other variable is always emitted; each equals its option; both test variables equal `tests` |
| ConanRecipe.Recipe.constructor | conanfile.py:24-36 | a new recipe holds every option at its default and no requirements |
| ConanRecipe.Recipe.ConfigOptions | conanfile.py:38-40 | removes `module_win` off Windows and nothing else |
| ConanRecipe.Recipe.Requirements | conanfile.py:49-58 | appends exactly the required packages, in order, and changes no option |
| ConanRecipe.Recipe.Generate | conanfile.py:63-79 | produces exactly the cache-variable map of the options |
| ConanRecipe.ConfigureOutcome | conanfile.py:38-47 | the whole configuration succeeds iff every override is acceptable, the OS is supported, C++17 holds and the sanitizers do not conflict; a success has exactly the options of this OS; an unsupported OS fails with that error |
| MessagePumps.IsSequenceActive | src/base/message_loop/message_pump_impl.cc:99-106 | true iff some executor slot holds the sequence |
| MessagePumps.FindFirstAllowed | src/base/message_loop/message_pump_impl.cc:83-97 | the index of the first task allowed for the executor, or the list length when there is none |
| MessagePumps.TakeFirstAllowedIsFirstAllowed | src/base/message_loop/message_pump_impl.cc:61-76 | either no task is allowed and nothing changes, or the first allowed task is removed alone (the others keep their order) and its sequence fills the executor's slot; other slots are untouched |
| MessagePumps.NextPendingTaskRetriesAfterEmptyTask | src/base/message_loop/message_pump_impl.cc:13-31 | after clearing the executor's slot: with no task allowed, the empty task comes back and the list is unchanged; a first allowed task with a closure is handed out; one without a closure is dropped, its sequence stays in the slot, and the next allowed task (if any) is handed out instead |
| MessagePumps.EmptyTaskIsSkipped | src/base/message_loop/message_pump_impl.cc:23-30 | a queued task without a closure in front of a plain task is dropped, and the plain task is handed out |
| MessagePumps.TakeFirstAllowedKeepsExclusive | src/base/message_loop/message_pump_impl.cc:61-76 | taking a task keeps every sequence active on at most one executor |
| MessagePumps.NextPendingTaskKeepsExclusive | src/base/message_loop/message_pump_impl.cc:13-31 | clearing the slot and taking once or twice keeps every sequence active on at most one executor |
| MessagePumps.NeverHandedOutWhenNotAllowed | src/base/message_loop/message_pump_impl.cc:83-97 | a handed-out task is untagged or pinned to this executor, and its sequence is active on no other executor |
| MessagePumps.MessagePump.constructor | src/base/message_loop/message_pump_impl.cc:9-11 | a new pump is running, empty, and has one empty slot per executor |
| MessagePumps.MessagePump.QueuePendingTask | src/base/message_loop/message_pump_impl.cc:33-47 | returns true iff the pump is not stopped, and then appends the task at the back; otherwise nothing changes |
| MessagePumps.MessagePump.Stop | src/base/message_loop/message_pump_impl.cc:49-59 | appends a non-empty last task only on the first stop; the pump is stopped afterwards |
| MessagePumps.MessagePump.GetNextPendingTaskLocked | src/base/message_loop/message_pump_impl.cc:61-76 | the returned task, list and slots are those of taking the first allowed task, without clearing the slot first; sequence exclusivity is kept |
| MessagePumps.MessagePump.GetNextPendingTask | src/base/message_loop/message_pump_impl.cc:13-31 | clears the slot and takes a task, taking again when the first has no closure; the returned task, list and slots are those of NextPendingTask, and sequence exclusivity is kept; a stopped pump still hands out queued tasks |
| MessageLoops.Drain | src/base/message_loop/message_loop_impl.cc:26-29 | repeated dequeues until nothing is allowed (or, in the stoppable variant, a quitting task ran): every run task is non-empty and no task is lost |
| MessageLoops.DrainUntilQuitStopsAtFirstQuit | src/base/message_loop/message_loop_impl.cc:42-45 | the stoppable drain runs no task after the first one that stops the loop; without one it equals the plain drain |
| MessageLoops.DrainKeepsExclusive | src/base/message_loop/message_loop_impl.cc:18-24 | draining keeps every sequence active on at most one executor |
| MessageLoops.DrainIdleMeansNothingAllowed | src/base/message_loop/message_loop_impl.cc:31-35 | a drain that runs nothing leaves the list as it was and no task allowed for this executor |
| MessageLoops.MessageLoop.constructor | src/base/message_loop/message_loop_impl.cc:8-12 | a new loop is not stopped and has run nothing |
| MessageLoops.MessageLoop.Stop | src/base/message_loop/message_loop_impl.cc:37-40 | the loop and its pump are stopped; no task is queued or run |
| MessageLoops.MessageLoop.Execute | src/base/message_loop/message_loop_impl.cc:47-55 | running a task records it with the current sequence; a quitting task stops the loop and the pump |
| MessageLoops.MessageLoop.RunTask | src/base/message_loop/message_loop_impl.cc:47-55 | the task runs with its own sequence current, and afterwards no sequence is current |
| MessageLoops.MessageLoop.RunOnce | src/base/message_loop/message_loop_impl.cc:18-24 | returns true iff the pump yields a task, and then runs exactly that task once |
| MessageLoops.MessageLoop.RunUntilIdle | src/base/message_loop/message_loop_impl.cc:26-29 | runs exactly the tasks the pump yields before its first empty result, in order |
| MessageLoops.MessageLoop.RunUntilIdleOrStop | src/base/message_loop/message_loop_impl.cc:42-45 | a stopped loop runs nothing; otherwise it runs the yielded tasks up to and including the first that stops it |
| MessageLoops.MessageLoop.Run | src/base/message_loop/message_loop_impl.cc:31-35 | returns only once stopped, unless no task is allowed and the slot is empty (where the source would block); the log only grows |
| TaskRunners.DoPostTask | src/base/threading/task_runner_impl.cc:8-22 | without a pump the post fails and nothing is queued; otherwise it returns the pump's queueing result with the given tags |
| TaskRunners.RunsInCurrentSequence | src/base/threading/task_runner_impl.cc:24-26 | true iff the current sequence is the given one |
| TaskRunners.TaskRunner.constructor | src/base/threading/task_runner_impl.cc:29-30 | the runner holds the pump |
| TaskRunners.TaskRunner.PostTask | src/base/threading/task_runner_impl.cc:32-34 | posts with no sequence and no executor tag |
| TaskRunners.SequencedTaskRunner.constructor | src/base/threading/task_runner_impl.cc:36-39 | the runner holds the pump and its sequence |
| TaskRunners.SequencedTaskRunner.PostTask | src/base/threading/task_runner_impl.cc:41-44 | posts tagged with its own sequence and no executor |
| TaskRunners.SequencedTaskRunner.RunsTasksInCurrentSequence | src/base/threading/task_runner_impl.cc:46-48 | true iff its sequence is current |
| TaskRunners.SingleThreadTaskRunner.constructor | src/base/threading/task_runner_impl.cc:50-56 | the runner holds the pump, its sequence and its executor |
| TaskRunners.SingleThreadTaskRunner.PostTask | src/base/threading/task_runner_impl.cc:58-62 | posts tagged with both its sequence and its executor |
| TaskRunners.SingleThreadTaskRunner.RunsTasksInCurrentSequence | src/base/threading/task_runner_impl.cc:64-66 | true iff its sequence is current |
| TaskRunners.SingleThreadTasksStayOnTheirExecutor | src/base/threading/task_runner_impl.cc:58-62 | a task posted this way is handed only to its executor, and only while no other executor runs its sequence |
| TaskRunners.UntaggedTasksAreAlwaysAllowed | src/base/threading/task_runner_impl.cc:32-34 | a plain runner's task may go to any executor |
| DelayedTasks.FrontIsTop | src/base/threading/delayed_task_manager.cc:9-15 | with the inverted order, the front of the queue starts no later than any other task |
| DelayedTasks.Insert | src/base/threading/delayed_task_manager.cc:44-48 | a push keeps the queue ordered by start time and adds exactly the new task |
| DelayedTasks.InsertFront | src/base/threading/delayed_task_manager.cc:44-52 | the new task becomes the front iff the queue was empty or it starts strictly earlier than the front |
| DelayedTasks.Deliveries | src/base/threading/delayed_task_manager.cc:70-76 | the released tasks a given pump receives, in release order |
| DelayedTasks.NextTaskRemainingDelay | src/base/threading/delayed_task_manager.cc:95-101 | none iff the queue is empty; otherwise the front's start time minus now, which is the smallest remaining delay |
| DelayedTasks.ForwardToPump | src/base/threading/delayed_task_manager.cc:72-74 | a released task reaches its own pump unless that pump is stopped; no other pump changes |
| DelayedTasks.DelayedTaskManager.constructor | src/base/threading/delayed_task_manager.cc:17-20 | a new manager is empty and not stopped |
| DelayedTasks.DelayedTaskManager.Stop | src/base/threading/delayed_task_manager.cc:22-30 | stops the manager and keeps the queue |
| DelayedTasks.DelayedTaskManager.QueueDelayedTask | src/base/threading/delayed_task_manager.cc:32-53 | a stopped manager ignores the task; otherwise it is inserted, and a wake-up is requested iff the queue was empty or the task starts strictly earlier than the front |
| DelayedTasks.DelayedTaskManager.ScheduleAllReadyTasks | src/base/threading/delayed_task_manager.cc:64-77 | releases exactly the prefix of tasks that start no later than now, in start-time order; later tasks stay; each live pump receives its released tasks in order |
| Sequences.SequenceContext.constructor | src/base/sequenced_task_runner_helpers.cc:9-12 | the counter starts at 0, no id is issued and no sequence is current |
| Sequences.SequenceContext.GetNextSequenceId | src/base/sequenced_task_runner_helpers.cc:9-12 | returns the counter value and records it as issued; it differs from every earlier id |
| Sequences.SequenceContext.EnterSequence | src/base/sequenced_task_runner_helpers.cc:19-22 | requires no current sequence, then makes the given one current |
| Sequences.SequenceContext.LeaveSequence | src/base/sequenced_task_runner_helpers.cc:24-27 | requires a current sequence, then leaves none current |
| Sequences.IssuedIdsDistinct | src/base/sequenced_task_runner_helpers.cc:9-12 | issued ids strictly increase, so they are pairwise distinct |
| Sequences.IsCurrentSequenceExactly | src/base/sequenced_task_runner_helpers.cc:15-17 | `IsCurrentSequence(x)` holds iff a sequence is current and it is x; never when none is current |
| SequenceCheckers.LazyBind | src/base/sequence_checker.cc:28-36 | an unbound checker binds to the current sequence; a bound one keeps its binding |
| SequenceCheckers.IsValidSequence | src/base/sequence_checker.cc:28-36 | true iff the checker was unbound or bound to the current sequence; true only with a current sequence |
| SequenceCheckers.BindingIsSticky | src/base/sequence_checker.cc:28-36 | once bound, later checks keep the binding and pass exactly on that sequence |
| SequenceCheckers.SequenceChecker.constructor | src/base/sequence_checker.cc:5-6 | binds to the current sequence, which may be none |
| SequenceCheckers.SequenceChecker.Moved | src/base/sequence_checker.cc:10-15 | requires a valid source, takes the current binding and leaves the source unbound |
| SequenceCheckers.SequenceChecker.CalledOnValidSequence | src/base/sequence_checker.cc:28-36 | binds lazily and reports whether the binding is the current sequence |
| SequenceCheckers.SequenceChecker.MoveAssign | src/base/sequence_checker.cc:17-26 | requires both checkers valid; the target is bound to the current sequence and a distinct source is left unbound |
| SequenceCheckers.SequenceChecker.DetachFromSequence | src/base/sequence_checker.cc:38-45 | requires a bound checker to be valid, then leaves it unbound |
| SequencedTaskRunnerHandles.HandleSlot.constructor | src/base/threading/sequenced_task_runner_handle.cc:9 | no handle is set at first |
| SequencedTaskRunnerHandles.HandleSlot.Get | src/base/threading/sequenced_task_runner_handle.cc:13-16 | requires a handle and returns its runner |
| SequencedTaskRunnerHandles.SequencedTaskRunnerHandle.constructor | src/base/threading/sequenced_task_runner_handle.cc:23-31 | requires no handle and a runner of the current sequence, then installs itself |
| SequencedTaskRunnerHandles.SequencedTaskRunnerHandle.Dispose | src/base/threading/sequenced_task_runner_handle.cc:33-38 | requires itself to be installed, then leaves no handle |
| SequencedTaskRunnerHandles.HandleScope | src/base/threading/sequenced_task_runner_handle.cc:23-38 | inside the handle's lifetime `Get` returns its runner, and afterwards no handle is set |
| Int64.ToInt32 | src/base/time/time_delta.cc:29-35 | `static_cast<int>`: the value itself when it fits, and otherwise congruent to it modulo 2^32 |
| Int64.DivisionIdentity | src/base/time/time.cc:57-63 | truncating `/` and `%`: a == (a/b)·b + a%b, and the remainder has the dividend's sign |
| Int64.QuotRemUnique | src/base/time/time.cc:57-63 | the truncating quotient and remainder are the only pair with that identity and sign rule |
| Deltas.Div | src/base/time/time_delta.cc:25-35 | C++ division of a microsecond count: the quotient truncated toward zero |
| Deltas.Nanoseconds | src/base/time/time_delta.h:91-95 | n nanoseconds are n/1000 microseconds, truncated toward zero |
| Deltas.FromTimeSpec | src/base/time/time_delta.cc:7-10 | tv_sec·10^6 plus tv_nsec/1000 truncated |
| Deltas.SignTrichotomy | src/base/time/time_delta.cc:13-23 | exactly one of IsZero, IsPositive and IsNegative holds |
| Deltas.InDays | src/base/time/time_delta.cc:25-27 | the truncated number of days |
| Deltas.DaysFitInt32 | src/base/time/time_delta.cc:25-27 | the day count of any int64 duration fits an int, so the cast never wraps |
| Deltas.InHours | src/base/time/time_delta.cc:29-31 | the truncated number of hours whenever it fits an int |
| Deltas.InMinutes | src/base/time/time_delta.cc:33-35 | the truncated number of minutes whenever it fits an int |
| Deltas.InHoursExact | src/base/time/time_delta.cc:29-31 | the truncated number of hours, without narrowing |
| Deltas.InMinutesExact | src/base/time/time_delta.cc:33-35 | the truncated number of minutes, without narrowing |
| Deltas.InSeconds | src/base/time/time_delta.cc:41-43 | the truncated number of seconds |
| Deltas.InMilliseconds | src/base/time/time_delta.cc:49-51 | the truncated number of milliseconds |
| Deltas.MillisecondsRoundTrip | src/base/time/time_delta.h:80-84 | InMilliseconds(Milliseconds(n)) == n |
| Deltas.SecondsRoundTrip | src/base/time/time_delta.h:75-78 | InSeconds(Seconds(n)) == n |
| Deltas.MinutesRoundTrip | src/base/time/time_delta.h:70-73 | converting Minutes(n) back gives n |
| Deltas.HoursRoundTrip | src/base/time/time_delta.h:65-68 | converting Hours(n) back gives n |
| Deltas.DaysRoundTrip | src/base/time/time_delta.h:60-63 | InDays(Days(n)) == n |
| Deltas.NanosecondsRoundTrip | src/base/time/time_delta.cc:61-63 | Nanoseconds(InNanoseconds(d)) == d |
| Deltas.InHoursAgreesWhenItFits | src/base/time/time_delta.cc:29-31 | InHours equals the exact hour count whenever that fits an int |
| Deltas.InHoursWrapsForLongDurations | src/base/time/time_delta.cc:29-31 | Hours(2^31) is a valid duration, yet InHours returns −2^31 for it |
| Deltas.InMinutesWrapsForLongDurations | src/base/time/time_delta.cc:33-35 | Minutes(2^31) is a valid duration, yet InMinutes returns −2^31 for it |
| Deltas.PlusMinusCancel | src/base/time/time_delta.cc:65-71 | (a + b) − b == a |
| Deltas.NegateLaws | src/base/time/time_delta.cc:81-83 | −(−a) == a, negation swaps positive and negative, and a − b == a + (−b) |
| Deltas.ComparisonsAreTotalOrder | src/base/time/time_delta.cc:85-107 | `==` is value equality and the operators form one strict total order |
| Deltas.TimeDeltaVar.AddAssign | src/base/time/time_delta.cc:73-75 | `+=` stores and returns the same value as `+` |
| Deltas.TimeDeltaVar.SubAssign | src/base/time/time_delta.cc:77-79 | `-=` stores and returns the same value as `-` |
| Times.ToTimeT | src/base/time/time.cc:46-48 | whole seconds, truncated toward zero |
| Times.FromTimeSpec | src/base/time/time.cc:52-55 | tv_sec·10^6 plus tv_nsec/1000 truncated |
| Times.ToTimeSpec | src/base/time/time.cc:57-63 | nanoseconds below one second in magnitude, a whole number of microseconds, with the time's sign |
| Times.TimeTRoundTrip | src/base/time/time.cc:42-48 | ToTimeT(FromTimeT(t)) == t |
| Times.TimeSpecRoundTrip | src/base/time/time.cc:52-63 | FromTimeSpec(ToTimeSpec(x)) == x for every time, negative ones included |
| Times.FromTimeSpecAgreesWithDelta | src/base/time/time.cc:52-55 | Time and TimeDelta read a timespec to the same microsecond count |
| Times.AddSubCancel | src/base/time/time.cc:90-96 | (t + d) − d == t and (t + d) − t == d |
| Times.AddDiff | src/base/time/time.cc:108-110 | u + (t − u) == t |
| Times.ComparisonsAreTotalOrder | src/base/time/time.cc:66-88 | comparisons follow the microsecond order, and adding a positive duration moves later |
| Times.TimeVar.AddAssign | src/base/time/time.cc:98-101 | `+=` agrees with `+` |
| Times.TimeVar.SubAssign | src/base/time/time.cc:103-106 | `-=` agrees with `-` |
| Ticks.AddSubCancel | src/base/time/time_ticks.cc:39-45 | (t + d) − d == t and (t + d) − t == d |
| Ticks.AddDiff | src/base/time/time_ticks.cc:57-59 | u + (t − u) == t |
| Ticks.ComparisonsAreTotalOrder | src/base/time/time_ticks.cc:15-37 | comparisons follow the microsecond order, and a later tick gives a positive difference |
| Ticks.TimeTicksVar.AddAssign | src/base/time/time_ticks.cc:47-50 | `+=` agrees with `+` |
| Ticks.TimeTicksVar.SubAssign | src/base/time/time_ticks.cc:52-55 | `-=` agrees with `-` |
| WaitableEvents.Observe | src/base/synchronization/waitable_event.cc:44-50 | reports the flag; under the automatic policy a raised flag is lowered, under the manual policy nothing changes |
| WaitableEvents.ManualObservationIsStable | src/base/synchronization/waitable_event.cc:44-50 | under the manual policy, observing never changes the state and can be repeated |
| WaitableEvents.AutomaticSignalIsSeenOnce | src/base/synchronization/waitable_event.cc:44-50 | under the automatic policy, a second observation without a new signal is negative |
| WaitableEvents.WaitableEvent.constructor | src/base/synchronization/waitable_event.cc:5-8 | starts signaled iff the initial state says so |
| WaitableEvents.WaitableEvent.Reset | src/base/synchronization/waitable_event.cc:12-15 | lowers the flag |
| WaitableEvents.WaitableEvent.Signal | src/base/synchronization/waitable_event.cc:17-23 | raises the flag and counts one signal |
| WaitableEvents.WaitableEvent.IsSignaled | src/base/synchronization/waitable_event.cc:25-28 | the result and new state are those of an observation of the old state |
| WaitableEvents.WaitableEvent.Wait | src/base/synchronization/waitable_event.cc:30-38 | returns at once exactly when signaled, consuming the signal under the automatic policy |
| AutoSignallers.AutoSignaller.constructor | src/base/synchronization/auto_signaller.cc:7 | arms on the event without signaling it |
| AutoSignallers.AutoSignaller.Moved | src/base/synchronization/auto_signaller.cc:15-16 | takes over the source's event and disarms the source |
| AutoSignallers.AutoSignaller.Dispose | src/base/synchronization/auto_signaller.cc:9-13 | signals the event exactly once iff still armed |
| AutoSignallers.AutoSignaller.MoveAssign | src/base/synchronization/auto_signaller.cc:18-26 | self-assignment changes nothing; otherwise it first signals its own armed event, then takes the other's and disarms the other |
| AutoSignallers.AutoSignaller.SignalAndReset | src/base/synchronization/auto_signaller.cc:28-33 | signals once if armed, and disarms |
| AutoSignallers.AutoSignaller.Cancel | src/base/synchronization/auto_signaller.cc:35-37 | disarms without signaling |
| AutoSignallers.SignalAndResetTwice | src/base/synchronization/auto_signaller.cc:28-33 | a second SignalAndReset adds no signal |
| AutoSignallers.CancelThenDispose | src/base/synchronization/auto_signaller.cc:35-37 | after Cancel, destruction does not signal |
| ScopedClosureRunners.ScopedClosureRunner.constructor | src/base/callback_helpers.cc:5-8 | holds the given closure, or none for the default runner |
| ScopedClosureRunners.ScopedClosureRunner.Moved | src/base/callback_helpers.cc:10-11 | takes over the closure and empties the source |
| ScopedClosureRunners.ScopedClosureRunner.RunAndReset | src/base/callback_helpers.cc:30-34 | runs the held closure, if any, once, and leaves the runner empty |
| ScopedClosureRunners.ScopedClosureRunner.Dispose | src/base/callback_helpers.cc:13-15 | destruction runs the held closure exactly once, and an empty runner runs nothing |
| ScopedClosureRunners.ScopedClosureRunner.ReplaceClosure | src/base/callback_helpers.cc:36-38 | the old closure is dropped unrun |
| ScopedClosureRunners.ScopedClosureRunner.Release | src/base/callback_helpers.cc:40-42 | returns the closure unrun and leaves the runner empty |
| ScopedClosureRunners.ScopedClosureRunner.MoveAssign | src/base/callback_helpers.cc:17-24 | runs its own closure first, then takes the other's and empties the other; self-assignment runs nothing |
| ScopedClosureRunners.RunAndResetTwice | src/base/callback_helpers.cc:30-34 | two RunAndReset calls run the closure at most once |
| ScopedClosureRunners.ReleaseThenDispose | src/base/callback_helpers.cc:40-42 | a released closure is not run on destruction |
| AutoResets.AutoReset.constructor | src/base/auto_reset.h:11-14 | saves the old value and sets the variable to the new one |
| AutoResets.AutoReset.Dispose | src/base/auto_reset.h:15 | restores the saved value |
| AutoResets.NestedScopes | src/base/auto_reset.h:11-15 | nested scopes see their own values, and the variable ends as it started |
| Barriers.BarrierClosureHelper.constructor | src/base/barrier_closure.cc:10-12 | starts with the required count, kept whole, and the callback; this is the corrected half of the narrowing finding, and Barriers.HelperCountAsWritten is the code as written |
| Barriers.BarrierClosureHelper.Run | src/base/barrier_closure.cc:14-19 | each run decrements the count, and the callback runs exactly on the run that reaches zero |
| Barriers.BarrierClosureHelper.RunTimes | src/base/barrier_closure.cc:14-19 | k runs fire the callback once iff k is the remaining count, and never before |
| Barriers.BarrierClosure | src/base/barrier_closure.cc:28-38 | a count of 0 runs the callback at once and returns an empty closure; otherwise a fresh helper holds the count and nothing has run |
| Barriers.HelperCountAsWritten | src/base/barrier_closure.cc:10-12 | the counter is the count itself only when it fits an int |
| Barriers.WideCountNarrows | src/base/barrier_closure.cc:10-12 | a count of 2^32 + k, for k below 2^31, becomes a counter of k |
| Barriers.WideCountFiresEarly | src/base/barrier_closure.cc:10-19 | a helper built as written for 2^32 + k runs fires its callback after k runs |
| Barriers.WideCountFires | src/base/barrier_closure.cc:28-38 | with the count kept whole, a barrier for 2^32 + k runs has not fired after k runs and fires exactly once on the last run |
| Barriers.BarrierCallbackHelper.constructor | src/base/barrier_callback.h:16-19 | starts with the count, the callback and an empty buffer |
| Barriers.BarrierCallbackHelper.Run | src/base/barrier_callback.h:21-32 | appends the element; on the run that reaches zero the callback receives every element in arrival order, and the buffer is emptied |
| Barriers.BarrierCallbackHelper.RunAll | src/base/barrier_callback.h:21-32 | the remaining runs deliver the buffered and new elements together, once |
| Barriers.BarrierCallback | src/base/barrier_callback.h:44-58 | a count of 0 delivers an empty collection at once; otherwise a fresh helper with an empty buffer |
| Barriers.BarrierCallbackRepeating | src/base/barrier_callback.h:60-67 | the repeating overload behaves like the once overload |
| Barriers.RunAsWritten | src/base/barrier_callback.h:21-32 | with the counter as an unsigned size_t, a run decrements it when it is positive |
| Barriers.ExtraRunIsNotCaught | src/base/barrier_callback.h:21-32 | a run after the callback fired wraps the counter to 2^64−1 and buffers the element |
| WeakPtrs.WeakPtrFactory.constructor | src/base/memory/weak_ptr.h:148-152 | a new factory has a fresh block that counts no pointer |
| WeakPtrs.WeakPtrFactory.GetWeakPtr | src/base/memory/weak_ptr.h:159-164 | a new pointer to the target on the current block, which now counts one more |
| WeakPtrs.WeakPtrFactory.InvalidateWeakPtrs | src/base/memory/weak_ptr.h:166-170 | a new block replaces the current one and counts no pointer |
| WeakPtrs.WeakPtrFactory.Dispose | src/base/memory/weak_ptr.h:177-180 | destroying the factory expires its block |
| WeakPtrs.WeakPtr.constructor | src/base/memory/weak_ptr.h:31-32 | the default and nullptr pointers hold no target and no block |
| WeakPtrs.WeakPtr.Issued | src/base/memory/weak_ptr.h:104-107 | holds the target and block, and counts itself if the block is live |
| WeakPtrs.WeakPtr.Copied | src/base/memory/weak_ptr.h:35-39 | a copy holds the same target and block and is counted once more on a live block |
| WeakPtrs.WeakPtr.Moved | src/base/memory/weak_ptr.h:41-44 | takes over target and block uncounted and leaves the source null |
| WeakPtrs.WeakPtr.IncreaseWeakCount | src/base/memory/weak_ptr.h:109-113 | counts one more on a live block; an expired block is left alone |
| WeakPtrs.WeakPtr.DecreaseWeakCount | src/base/memory/weak_ptr.h:115-119 | counts one less on a live block; an expired block is left alone |
| WeakPtrs.WeakPtr.Dispose | src/base/memory/weak_ptr.h:33 | destruction uncounts the pointer from a live block |
| WeakPtrs.WeakPtr.CopyAssign | src/base/memory/weak_ptr.h:46-56 | unless assigning from itself, is uncounted from its old block if live and counted on the other's block if live; each factory involved moves by that shift, which is zero on the same block, and the pointer and block become the other's |
| WeakPtrs.WeakPtr.MoveAssign | src/base/memory/weak_ptr.h:58-67 | unless moving from itself, uncounts its old block, takes the other's state and leaves the other null |
| WeakPtrs.WeakPtr.Get | src/base/memory/weak_ptr.h:81-87 | the target while the block is live, null otherwise |
| WeakPtrs.WeakPtr.MaybeValid | src/base/memory/weak_ptr.h:89 | true iff the block is live |
| WeakPtrs.WeakPtr.WasInvalidated | src/base/memory/weak_ptr.h:91-97 | true iff the pointer is non-null and its block expired, and then Get is null |
| WeakPtrs.WeakPtr.IsNull | src/base/memory/weak_ptr.h:125-143 | comparing with nullptr is true iff Get is null |
| WeakPtrs.DefaultPointer | src/base/memory/weak_ptr.h:79-97 | a default pointer is null, not valid and not invalidated |
| WeakPtrs.InvalidateThenReissue | src/base/memory/weak_ptr.h:159-175 | after invalidation an earlier pointer is null and reports invalidation, while a later one reaches the target and is the only one counted |
| WeakPtrs.CopyIsCounted | src/base/memory/weak_ptr.h:33-39 | a copy reaches the target and is counted, and destroying it uncounts it |
| WeakPtrs.CopyAssignMovesCount | src/base/memory/weak_ptr.h:46-56 | assigning a pointer of another live factory uncounts it from the old factory, counts it on the new one, and makes it reach the new target |
| WeakPtrs.MoveKeepsCount | src/base/memory/weak_ptr.h:41-44 | a move leaves the source null and changes no count |
| Callbacks.Apply | src/base/callback.h:23-32 | a call is made once with the given arguments, and it yields a result iff the function is not void |
| Callbacks.InvokeCallable | src/base/bind_internals.h:272-289 | a function pointer is always called; a member call needs a raw pointer or a valid WeakPtr first; IgnoreResult makes the same call and returns nothing |
| Callbacks.FreeFunctionPrependsBound | src/base/callback.h:23-32 | a free function with bound arguments is called once with the bound arguments before the run arguments |
| Callbacks.BoundTwiceIsBoundOnce | src/base/callback.h:56-65 | binding a and then b in front of a callback runs like binding a + b at once |
| Callbacks.WeakCallRunsIffValid | src/base/callback.h:196-203 | a WeakPtr member callback calls the method iff the pointer is valid, and otherwise does nothing |
| Callbacks.MoveOut | src/base/bind_internals.h:284-287 | what a by-value parameter leaves in its source: an empty string, a null WeakPtr, or a copy of a plain value |
| Callbacks.BoundAfterRunAsWritten | src/base/bind_internals.h:284-287 | after a run, every bound argument of a functor callback has been moved from |
| Callbacks.SecondRunSeesMovedFromArgument | src/base/bind_internals.h:272-289 | a repeating functor callback with a bound string passes it on the first run and an empty string on the second |
| Callbacks.IgnoredMemberOnInvalidWeakIsNotSkippedAsWritten | src/base/bind_internals.h:61-81 | as written, IgnoreResult of a member on an invalid WeakPtr is not skipped, and the call dereferences the pointer |
| Callbacks.IgnoredMemberOnInvalidWeakIsSkipped | src/base/bind_internals.h:61-81 | with the check looking through IgnoreResult, that call is skipped like a plain member call |
| Callbacks.CloneAsWritten | src/base/bind_internals.h:223-232 | cloning succeeds iff the implementation is non-null, and gives the same implementation |
| Callbacks.CopyOfEmptyDereferencesNull | src/base/callback.h:592-593 | copying an empty RepeatingCallback dereferences its null implementation |
| Binding.CallableParams | src/base/bind_internals.h:127-145 | a member function takes its instance as one extra first parameter |
| Binding.CallableReturn | src/base/bind_internals.h:209-217 | IgnoreResult returns void |
| Binding.MemberArity | src/base/bind_internals.h:137-145 | a member function's parameters are the instance followed by its own |
| Binding.IgnoreResultTraits | src/base/bind_internals.h:116-125 | IgnoreResult keeps the parameters and makes the return type void |
| Binding.ResultSignature | src/base/bind_internals.h:319-327 | the result keeps the return type and takes the parameters after the first k |
| Binding.Bind | src/base/bind_internals.h:300-327 | requires at most as many bound arguments as parameters; bound and remaining parameters together are the functor's |
| Binding.BindCallsWithBoundFirst | src/base/bind_internals.h:272-289 | a bound function is called with the bound arguments before the run arguments |
| Binding.BindOnWeakRunsIffValid | src/base/bind_internals.h:61-81 | a member bound to a WeakPtr is called iff the pointer is valid, and is skipped otherwise |
| Binding.IgnoreResultSameCalls | src/base/bind_internals.h:116-125 | IgnoreResult makes the same call and returns nothing |
| Binding.BindOfCallbackPrepends | src/base/bind_internals.h:87-96 | binding a once or repeating callback runs it with the bound arguments first |
| Binding.BindSignature | src/base/bind.h:27-36 | the result keeps the return type and takes the parameters after the bound prefix |
| Binding.BindFunction | src/base/bind.h:13-45 | binding a function pointer gives that signature, and a run always calls it |
| Binding.BindMember | src/base/bind.h:47-81 | binding a member on a raw pointer gives that signature, and a run always calls it |
| Binding.BindWeakMember | src/base/bind.h:83-119 | binding on a WeakPtr requires a void method and gives a void callback |
| Binding.BindCallback | src/base/bind.h:129-161 | binding a callback keeps its return type and takes the parameters after the bound prefix |
| Binding.BoundFunctionsRunWithPrefix | src/base/bind.h:13-81 | bound functions and members are called with the instance, then the bound arguments, then the run arguments |
| Binding.WeakBoundMethodSkippedOnceInvalid | src/base/bind.h:83-119 | a method bound to a WeakPtr is called while the pointer is valid and skipped once it is not |
| Binding.BindingInTwoSteps | src/base/bind.h:129-161 | binding a, then b, has the signature and the calls of binding a + b at once |
| Binding.BindOnceConsuming | src/base/bind.h:129-161 | BindOnce of a OnceCallback gives a callback that runs its implementation behind the bound prefix, and leaves the source empty |
| Binding.BindOnceCloning | src/base/bind.h:163-196 | BindOnce of a RepeatingCallback gives a OnceCallback that runs the source's implementation behind the bound prefix; the source is not modified |
| Binding.BindRepeatingCloning | src/base/bind.h:317-350 | BindRepeating of a RepeatingCallback gives a callback that runs the source's implementation behind the bound prefix; the source is not modified |
| CallbackObjects.OnceCallback.Empty | src/base/callback.h:454 | a default callback has no implementation |
| CallbackObjects.OnceCallback.constructor | src/base/callback.h:523-526 | holds the given implementation |
| CallbackObjects.OnceCallback.Moved | src/base/callback.h:507 | takes the implementation and empties the source |
| CallbackObjects.OnceCallback.Bound | src/base/callback.h:497-505 | binding onto another OnceCallback empties that one |
| CallbackObjects.OnceCallback.Run | src/base/callback.h:511-514 | runs the implementation once and is empty afterwards |
| CallbackObjects.RepeatingCallback.Empty | src/base/callback.h:540 | a default callback has no implementation |
| CallbackObjects.RepeatingCallback.constructor | src/base/callback.h:542-579 | holds the given implementation |
| CallbackObjects.RepeatingCallback.Bound | src/base/callback.h:581-590 | binds in front of a clone, leaving the source intact |
| CallbackObjects.RepeatingCallback.Copied | src/base/callback.h:592-593 | a copy runs like the original and is set iff the original is |
| CallbackObjects.RepeatingCallback.Moved | src/base/callback.h:594 | takes the implementation and empties the source |
| CallbackObjects.RepeatingCallback.ToOnce | src/base/callback.h:596-598 | converting gives a OnceCallback with the same implementation, and the source stays valid |
| CallbackObjects.RepeatingCallback.Run | src/base/callback.h:602-604 | runs the implementation and leaves the callback unchanged |
| CallbackObjects.RunTwice | src/base/callback.h:602-604 | two runs give the same result and calls, and the callback stays set |
| CallbackObjects.RunOnceEmpties | src/base/callback.h:511-514 | after a run the OnceCallback is empty and cannot run again |
| CallbackObjects.EmptyCopies | src/base/callback.h:592-598 | copying or converting an empty RepeatingCallback gives an empty callback |
| CallbackComposition.SecondArguments | src/base/callback_internals.h:16-21 | the second callback receives nothing after a void first, and else exactly the first's result |
| CallbackComposition.ThenInvoke | src/base/callback_internals.h:13-23 | the first callback's calls all come before the second's |
| CallbackComposition.ThenAfterVoid | src/base/callback_internals.h:16-18 | with a void first callback: first(args), then second() |
| CallbackComposition.ThenPassesResult | src/base/callback_internals.h:19-21 | with a non-void first callback, the second receives its result |
| CallbackComposition.SecondSeesOnlyTheResult | src/base/callback_internals.h:13-23 | the arguments reach only the first callback: equal first results give the second callback the same run |
| CallbackComposition.InvokeThen | src/base/callback_internals.h:13-23 | both callbacks run exactly once, first then second, and both are emptied |
| CallbackComposition.PostTaskAndReplyWithResultHelper.constructor | src/base/task_runner_internals.h:25 | no result is stored at first |
| CallbackComposition.PostTaskAndReplyWithResultHelper.ExecuteTaskAndStoreResultIn | src/base/task_runner_internals.h:12-16 | runs the task once and stores its result |
| CallbackComposition.PostTaskAndReplyWithResultHelper.ExecuteReplyWithTaskResult | src/base/task_runner_internals.h:18-22 | requires a stored result, and runs the reply once with it |
| CallbackComposition.PostTaskAndReplyWithResult | src/base/task_runner_internals.h:12-22 | end to end, the task runs, then the reply runs with the task's return value |
| TypeTraits.TypesRange | src/base/type_traits.h:35-42 | the Count types starting at Offset, in order |
| TypeTraits.HeadTypesRange | src/base/type_traits.h:58-59 | the first Count types |
| TypeTraits.HeadAndRestAreWhole | src/base/type_traits.h:53-59 | the first k types followed by the rest are the whole list |
| TypeTraits.RangeOfRange | src/base/type_traits.h:35-56 | a range of a range is a range of the original at the summed offset |
| ResourceRequests.Request | src/base/net/resource_request.h:16-29 | a new request has no headers, no post data, headers_only off, zero timeouts and follow_redirects on |
| ResourceRequests.WithHeaders | src/base/net/resource_request.cc:6-15 | sets the headers and changes no other field |
| ResourceRequests.WithPostData | src/base/net/resource_request.cc:17-26 | sets the post data and changes no other field |
| ResourceRequests.Bytes | src/base/net/resource_request.cc:28-37 | one byte per character, each the character's low 8 bits |
| ResourceRequests.WithPostDataString | src/base/net/resource_request.cc:28-37 | sets post data of the string's length and changes no other field |
| ResourceRequests.WithHeadersOnly | src/base/net/resource_request.cc:39-46 | sets headers_only and changes no other field |
| ResourceRequests.WithTimeout | src/base/net/resource_request.cc:48-56 | sets the timeout and changes no other field |
| ResourceRequests.WithConnectTimeout | src/base/net/resource_request.cc:58-68 | sets the connect timeout and changes no other field |
| ResourceRequests.WithFollowRedirects | src/base/net/resource_request.cc:70-80 | sets follow_redirects and changes no other field |
| ResourceRequests.StringPostDataIsItsBytes | src/base/net/resource_request.cc:28-37 | the string overload gives the same request as the byte overload on the string's bytes |
| ResourceRequests.FlagBuildersDefaultToTrue | src/base/net/resource_request.h:40-51 | WithHeadersOnly() and WithFollowRedirects() set their flag to true |
| ResourceRequests.LastWriteWins | src/base/net/resource_request.cc:6-80 | setting a field twice keeps the second value |
| ResourceRequests.BuildersCommute | src/base/net/resource_request.cc:6-80 | builders of different fields commute |
| NetThreads.CurlCodeToNetResult | src/base/net/impl/net_thread_impl.cc:7-18 | CURLE_OK gives kOk, CURLE_ABORTED_BY_CALLBACK gives kAborted, and any other code gives kError |
| NetThreads.NoCodeMeansTimeout | src/base/net/impl/net_thread_impl.cc:7-18 | kTimeout is never produced |
| NetThreads.DefaultResponse | src/base/net/resource_response.h:14-25 | a fresh response is kOk with code −1, no data or headers, and −1 s timings |
| NetThreads.AbortedResponse | src/base/net/impl/net_thread_impl.cc:286-299 | an aborted download reports kAborted with code −1, no URL, headers or data, zero queue, connect and start-transfer timings, and a total timing of −1 s (the member the initialiser list leaves at its default) |
| NetThreads.Appended | src/base/net/impl/net_thread_impl.cc:201-204 | the chunk is appended to the data, and nothing else changes |
| NetThreads.AcceptedWriteStaysWithinLimit | src/base/net/impl/net_thread_impl.cc:195-204 | an accepted write keeps the data within the size limit |
| NetThreads.ActivatedContents | src/base/net/impl/net_thread_impl.cc:107-116 | activation keeps every active download and adds each pending one under a fresh handle, in order |
| NetThreads.InsertHeadersKeepsFirst | src/base/net/impl/net_thread_impl.cc:237-243 | the first occurrence of a new header name is the value kept |
| NetThreads.InsertHeadersKeepsExisting | src/base/net/impl/net_thread_impl.cc:237-243 | headers already in the response are never overwritten |
| NetThreads.Timing | src/base/net/impl/net_thread_impl.cc:246-264 | a reported timing becomes that many microseconds; otherwise the old value stays |
| NetThreads.Finished | src/base/net/impl/net_thread_impl.cc:220-226 | the finished response has the result, code −1 unless kOk, and the received data |
| NetThreads.Aborts | src/base/net/impl/net_thread_impl.cc:286-299 | one aborted response per active download, to its own callback; each is kAborted with zero queue, connect and start-transfer timings and a total of −1 s |
| NetThreads.NetThreadImpl.constructor | src/base/net/impl/net_thread_impl.cc:35-57 | a started thread has no downloads and nothing to process |
| NetThreads.NetThreadImpl.EnqueueDownload | src/base/net/impl/net_thread_impl.cc:70-90 | appends the download with a fresh response to the pending list and marks the thread modified |
| NetThreads.NetThreadImpl.ProcessPendingActions | src/base/net/impl/net_thread_impl.cc:107-116 | when modified, every pending download becomes active and the pending list is emptied; otherwise nothing changes |
| NetThreads.NetThreadImpl.Write | src/base/net/impl/net_thread_impl.cc:193-205 | a write over the limit returns 0 and changes nothing; otherwise it appends all n·l bytes and returns n·l |
| NetThreads.NetThreadImpl.DownloadFinished | src/base/net/impl/net_thread_impl.cc:210-270 | delivers the finished response to the download's callback and removes the download |
| NetThreads.NetThreadImpl.AbortAllDownloads | src/base/net/impl/net_thread_impl.cc:286-299 | each active download receives one aborted response (kAborted, zero queue, connect and start-transfer timings, total −1 s), and no download stays active |
| NetThreads.EnqueueThenProcess | src/base/net/impl/net_thread_impl.cc:70-116 | an enqueued download becomes active, unchanged, after processing |
| TraceArguments.AppendArguments | src/base/trace_event/trace_argument_packer.h:46-54 | appends n/2 pairs after the container; pair i is (args[2i], args[2i+1]) |
| TraceArguments.PackStringArguments | src/base/trace_event/trace_argument_packer.h:19-30 | requires an even count; pair i is (args[2i], args[2i+1]) |
| TraceArguments.PackIntegerArguments | src/base/trace_event/trace_argument_packer.h:32-43 | as for strings, with integer values |
| TraceArguments.PackExtends | src/base/trace_event/trace_argument_packer.h:46-54 | an empty list packs to no pairs, and one more key and value add one pair at the end |
| Text.Quote | src/base/trace_event/trace_events.cc:9-19 | the string between double quotes, unescaped |
| Text.Decimal | src/base/trace_event/trace_events.cc:21-31 | the decimal digits of a number, with no leading zero |
| Text.DecimalRoundTrip | src/base/trace_event/trace_events.cc:21-31 | reading the decimal text back gives the number |
| TraceEvents.Separated | src/base/trace_event/trace_events.cc:9-19 | every entry but the last is followed by a comma |
| TraceEvents.SeparatedIsJoin | src/base/trace_event/trace_events.cc:9-19 | the entries are separated by single commas, with none trailing |
| TraceEvents.ArgumentsObject | src/base/trace_event/trace_events.cc:9-31 | `"args":{` plus the comma-joined entries plus `}` |
| TraceEvents.StringEntries | src/base/trace_event/trace_events.cc:9-19 | one entry per argument pair, in order |
| TraceEvents.IntegerEntries | src/base/trace_event/trace_events.cc:21-31 | one entry per argument pair, in order |
| TraceEvents.WriteEntries | src/base/trace_event/trace_events.cc:9-31 | the loop writes exactly the arguments object |
| TraceEvents.WriteStringArguments | src/base/trace_event/trace_events.cc:9-19 | writes the arguments object of the string pairs |
| TraceEvents.WriteIntegerArguments | src/base/trace_event/trace_events.cc:21-31 | writes the arguments object of the integer pairs |
| TraceEvents.ObjectText | src/base/trace_event/trace_events.cc:34-49 | an event object starts with `{` and ends with `}` |
| TraceEvents.EventFields | src/base/trace_event/trace_events.cc:34-49 | fields name, cat, then id only when non-empty, then ph, ts, pid, tid |
| TraceEvents.CompleteEventFields | src/base/trace_event/trace_events.cc:51-64 | phase "X", and dur comes right after ts |
| TraceEvents.CounterFields | src/base/trace_event/trace_events.cc:66-77 | phase "C", and no tid |
| TraceEvents.CounterIdFields | src/base/trace_event/trace_events.cc:79-91 | an id, phase "C", and no tid |
| TraceEvents.InstantEventFields | src/base/trace_event/trace_events.cc:93-106 | a scope field "s" and phase "i" |
| TraceEvents.ObjectStartsWithTwoFields | src/base/trace_event/trace_events.cc:34-49 | the object text is `{`, the fields in order, the arguments, `}` |
| TraceEvents.NoArgumentsIsEmptyObject | src/base/trace_event/trace_events.cc:9-19 | no arguments give `"args":{}` |
| TraceEvents.ArgumentValueFormats | src/base/trace_event/trace_events.cc:9-31 | string values are quoted and integer values are bare digits |
| TraceJson.ChunkAppend | src/base/trace_event/trace_json_writer.h:33-44 | writing two lists in turn through the shared flag is writing their concatenation |
| TraceJson.ChunkIsJoin | src/base/trace_event/trace_json_writer.h:33-44 | events are separated by `,\n`, never before the first or after the last |
| TraceJson.WriteEvents | src/base/trace_event/trace_json_writer.h:33-44 | writes each event, preceded by `,\n` when something was written before, and reports whether anything has been written |
| TraceJson.WriteLists | src/base/trace_event/trace_json_writer.h:16-30 | header, the five lists as one `,\n`-separated list, trailer |
| TraceJson.WriteAll | src/base/trace_event/trace_json_writer.h:16-30 | the whole trace file: generic, complete, counter, counter-with-id, then instant events |
| TraceJson.EmptyTraceFile | src/base/trace_event/trace_json_writer.h:22-29 | with no events the file is exactly `{"traceEvents":[\n\n]}` |
| TraceJson.TwoEventFile | src/base/trace_event/trace_json_writer.h:33-44 | two events are separated by exactly one `,\n` |
| TraceRegister.ToUint64 | src/base/trace_event/trace_event_register.h:100-103 | the int64 to uint64 conversion is the identity on non-negative values and adds 2^64 to negative ones |
| TraceRegister.Timestamp | src/base/trace_event/trace_event_register.h:100-103 | microseconds since the first clock reading; a clock that went back gives a huge wrapped value |
| TraceRegister.CompleteEventEndingAt | src/base/trace_event/trace_event_register.h:118-131 | dropped iff now < duration; otherwise ts + dur == now |
| TraceRegister.PointerId | src/base/trace_event/trace_event_register.h:31-41 | an object's address as non-empty decimal digits |
| TraceRegister.PointerIdsAreDistinct | src/base/trace_event/trace_event_register.h:31-41 | different addresses give different ids, and no id is empty |
| TraceRegister.EventRegister.constructor | src/base/trace_event/trace_event_register.h:95-98 | the register starts with five empty lists |
| TraceRegister.EventRegister.PushGenericEvent | src/base/trace_event/trace_event_register.h:108-116 | appends one event to the generic list and leaves the other lists alone |
| TraceRegister.EventRegister.PushCompleteEvent | src/base/trace_event/trace_event_register.h:118-131 | appends the complete event unless it is dropped; other lists unchanged |
| TraceRegister.EventRegister.PushCounter | src/base/trace_event/trace_event_register.h:133-139 | appends one counter event; other lists unchanged |
| TraceRegister.EventRegister.PushCounterId | src/base/trace_event/trace_event_register.h:141-149 | appends one counter-with-id event; other lists unchanged |
| TraceRegister.EventRegister.PushInstantEvent | src/base/trace_event/trace_event_register.h:151-159 | appends one instant event; other lists unchanged |
| TraceRegister.EventRegister.RegisterEvent | src/base/trace_event/trace_event_register.h:20-29 | records a synchronous event with an empty id and the packed arguments |
| TraceRegister.EventRegister.RegisterAsyncEvent | src/base/trace_event/trace_event_register.h:31-41 | records an event whose id is the object's address |
| TraceRegister.EventRegister.RegisterCompleteEvent | src/base/trace_event/trace_event_register.h:43-51 | records the complete event with the drop rule |
| TraceRegister.EventRegister.RegisterCounter | src/base/trace_event/trace_event_register.h:53-60 | records a counter with the packed arguments |
| TraceRegister.EventRegister.RegisterCounterId | src/base/trace_event/trace_event_register.h:62-71 | records a counter whose id is the object's address |
| TraceRegister.EventRegister.RegisterInstantEvent | src/base/trace_event/trace_event_register.h:73-81 | records an instant event with its scope |
| TraceRegister.EventRegister.FlushAllEvents | src/base/trace_event/trace_event_register.h:161-172 | writes the trace file of all five lists, then empties all five |
| TraceRegister.EventRegister.FlushEventsToFile | src/base/trace_event/trace_event_register.h:83-87 | the new file holds exactly the trace file, and the register is empty |
| TraceRegister.FlushTwice | src/base/trace_event/trace_event_register.h:161-172 | a second flush writes an empty trace file |

## Left out

- Threads, mutexes, condition variables and atomics are not modelled. Every operation runs sequentially.
- The blocking waits are not modelled: `MessagePumpImpl::GetNextPendingTask` (message_pump_impl.cc:27-30), `WaitableEvent::Wait` (waitable_event.cc:37), and the delayed-task scheduler thread with its timed waits (delayed_task_manager.cc:17-30, 55-62, 79-93).
- MessagePumps.MessagePump.GetNextPendingTask: only the non-blocking path. Where the source waits (nothing allowed after the first take, and the pump not stopped), the second take finds nothing and the empty task comes back. A task another thread posts during that wait is not modelled.
- MessageLoops.MessageLoop.Run: where the source would block waiting for a task, the model returns `blocked = true`. It then states that no task was allowed and the executor's slot is empty.
- WaitableEvents.WaitableEvent.Wait: it returns whether the wait would end at once; it does not wait.
- Clocks and OS queries are parameters: `TimeTicks::Now`, `Time::Now`, and the trace `GetTs`, `GetPid` and `GetTid`. `Timestamp` takes both the first reading and the current one.
- Dafny strings stand for C++ byte strings, one character per byte. ResourceRequests.Bytes keeps each character's low 8 bits, and `Text.Quote` and `Text.Decimal` treat characters as single bytes. A character of 256 or more has no C++ counterpart.
- DelayedTasks.DelayedTaskManager.ScheduleAllReadyTasks: takes one `now` for the whole call. The source reads `TimeTicks::Now()` again on each iteration (delayed_task_manager.cc:65-67), so a task that falls due during the call may also be released there.
- The floating-point conversions are not modelled: `InSecondsF`, `InMillisecondsF` and `InMicrosecondsF`.
- Network I/O and libcurl calls are not modelled:
  - multi-handle setup, `Perform`, `Wait` and `RemoveDownload`'s curl clean-up;
  - the header `curl_slist`;
  - `SimpleUrlLoader`, `UrlRequest` and `net/init.cc`.
  - The transfer information curl reports is a parameter of `DownloadFinished`.
- NetThreads.NetThreadImpl.Write: n·l is an unbounded integer, so a `size_t` overflow of that product is not modelled.
- `Thread`, `ThreadPool` (with its random executor choice), the `RunLoop` wiring, `BindPostTask`, `TaskRunner::PostTaskAndReply` and the shared `DelayedTaskManager` instance are not modelled. Tasks in the loop's `quitTasks` set stand for run-loop quit closures: running one stops the loop.
- The Win32 and wxWidgets attachments and the examples are not modelled. Neither are logging and initialisation (`logging.cc`, `init.cc`) or `docs/conf.py`.
- Conan-specific behaviour:
  - `check_min_cppstd` is a boolean parameter.
  - Conan's own option resolution is modelled as overrides that must name an existing option and give "True" or "False".
  - The files written by `cmake_layout`, `CMakeDeps` and `CMakeToolchain` are out; the cache variables are a map.
- DelayedTasks.Insert: tasks with equal start times keep insertion order. `std::priority_queue` leaves their order unspecified.
- Sequences.IssuedIdsDistinct: the counter's wrap modulo 2^64 is modelled, but distinctness is proved only for the first 2^64 ids. After that the ids repeat.
- The weak count lives only on the factory's current block. Count updates on an expired block are skipped, just as `weak_ptr::lock` fails there.
- Deltas.InHours: the contract states the result only when it fits an `int`. The same holds for Deltas.InMinutes. The wrap for longer durations is proved separately (see Findings).
- TraceRegister.EventRegister.RegisterCounter: the key-value list is packed as integer arguments. The same holds for TraceRegister.EventRegister.RegisterCounterId. In trace_event_register.h:53-71 the source packs string arguments, but the counter event types hold integer arguments (trace_events.h:46 and :58), so those calls do not type-check.
- `RepeatingCallback::Run() &&` (callback.h:606-609) is ill-formed and is not modelled.
- `IdentityT` is the identity on types and states nothing to prove.
- Template mechanics are not modelled:
  - reference and cv-qualifier traits, `std::ref`, `Owned`, `Unretained` and `RetainedRef`;
  - the duplicate `ApplyBound…` helpers in callback.h. The bind_internals.h versions are modelled.
  - Captureless lambdas count as function pointers, as bind.h:121-127 forwards them.
- The DCHECKs and CHECKs on sequence affinity, and the scoped sequence-id setter's CHECKs, become preconditions.
- The barrier unit test that expects the callback only after count+1 runs contradicts barrier_closure.cc:14-19. The model follows the code.
- Several headers disagree with their `.cc` files. The model follows the `.cc` files: message_pump_impl.h, message_loop_impl.h:21 `Stop(PendingTask)`, and task_runner_impl.h `PostDelayedTask`.

## Findings

| source | as written | input that shows it | evidently intended | confidence | as-written member | corrected member |
|---|---|---|---|---|---|---|
| src/base/time/time_delta.cc:29-35 | `InHours` and `InMinutes` narrow the int64 quotient to `int` | `Hours(2^31)`, about 245,000 years, is a valid duration, but `InHours` returns −2^31 | the exact hour or minute count, as `InSeconds` and `InMilliseconds` return | medium; not executed | Deltas.InHoursWrapsForLongDurations | Deltas.HoursRoundTrip |
| src/base/barrier_closure.cc:10-12 | the `size_t` count is narrowed to `int` for the run counter | a count of 2^32 + 3 gives a counter of 3, so the callback runs after the third run; no run goes below zero, so this holds with or without a fatal `DCHECK` | a counter as wide as the count | low; not executed | Barriers.WideCountFiresEarly | Barriers.WideCountFires |
| src/base/barrier_callback.h:21-32 | `DCHECK_GE` compares the unsigned `size_t` counter with 0, so it always holds | one run more than the count after firing: the counter wraps to 2^64−1 and the element is buffered silently | the extra run is rejected, as the `int` counter of barrier_closure.cc is checked | medium; not executed | Barriers.ExtraRunIsNotCaught | Barriers.BarrierCallbackHelper.Run |
| src/base/callback.h:592-598 | copying or converting a `RepeatingCallback` calls `impl_->Clone()` unconditionally | copying a default-constructed `RepeatingCallback` dereferences a null `impl_` | the copy of an empty callback is empty | high; not executed | Callbacks.CopyOfEmptyDereferencesNull | CallbackObjects.EmptyCopies |
| src/base/bind_internals.h:284-287 | a repeating functor callback passes its bound arguments on as rvalues | a bound `std::string` is moved from on the first run, so the second run receives an empty string | every run of a repeating callback receives the bound values | low: the functor callback is built only by `detail::Bind` (bind_internals.h:299-335), which bind.h does not call in this snapshot; not executed | Callbacks.SecondRunSeesMovedFromArgument | CallbackObjects.RunTwice |
| src/base/bind_internals.h:61-81 | the WeakPtr skip applies only when the functor itself is a member function pointer | `IgnoreResult(&C::f)` bound to an invalidated WeakPtr is called and dereferences it | IgnoreResult of a member call is skipped like the plain member call | low: the functor callback is built only by `detail::Bind` (bind_internals.h:299-335), which bind.h does not call in this snapshot, and no `IgnoreResult` factory exists there; not executed | Callbacks.IgnoredMemberOnInvalidWeakIsNotSkippedAsWritten | Callbacks.IgnoredMemberOnInvalidWeakIsSkipped |
