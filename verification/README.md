# A verified model of the Gardener service

Gardener runs long tasks through command line agents.  A *run* of a task plans,
fans out subtasks ("trees") in numbered stages ("forests"), validates each stage
and decides how to go on, while users send messages, stop and delete tasks, a
watchdog looks for idle ones, and the service may restart at any moment.  This
project models the logic of that service and proves what holds of it for every
input and every interleaving.  `dafny verify dfyconfig.toml` checks all of it.

| files | what they model |
|---|---|
| `process_keys`, `protocol` | the step system of runs, workers, users, watchdog and restarts |
| `ownership`, `live_keys`, `stages`, `flags`, `fork_join` | one part of the inductive invariant each |
| `safety` | the theorems about all reachable states |
| `run_course`, `service_course` | what each step of a run, a user, the watchdog and a restart does, said of plans, flags, subtasks and runs; stages are filled |
| `orchestrator` | the orchestrator as an object that only takes steps of the protocol |
| `watchdog`, `watchdog_course` | the idle test and the loop of a watchdog tick; which tasks it marks and starts |
| `proxy`, `proxy_streams`, `proxy_grammar`, `proxy_lines`, `proxy_messages` | the translation of chat deltas into response events |
| `usage`, `usage_reader`, `usage_summary` | the token-usage recorder, reader, deduplication and summary |
| `stamps`, `store_log` | log stamps, the bounded progress buffer, the log file and its reader |
| `store_model`, `store_steps`, `store_history`, `store` | tasks in memory and on disk, restarts, deletion |
| `store_crash` | a crash inside the writing of a task |
| `store_paths` | why a safe identifier names a directory of its own |
| `csv` | the CSV preview |
| `paths`, `workspace` | listing and serving the files of a workspace |
| `text`, `sequences`, `options` | shared vocabulary |

## How the protocol is cut into steps

A step is a stretch of code between two points at which another goroutine can be
seen to act.  Taken as one step:

- `startForestRun` (cancel, then register) together with the write of the task
  before it;
- an `isActiveRun` check together with the finish or pause that follows it;
- the code of `runForest` between two checks of the context and the stop flag;
- the removal of a deleted task's files;
- a restart: `Load` and then `ResumeUnfinished`, before any new run acts; the disk
  it reads is the one the steps before it have left (`store_crash` is about a
  crash inside the writing of a task);
- `runTree` up to the call of the agent, and from its return.

Everything else interleaves freely: adding a subtask, acquiring a slot, giving up
on one, starting, returning, releasing, joining, every user action, the two halves
of a deletion, every visit of the watchdog (which works on a list that may be
outdated), and restarts.  The agent is a step that may be taken at any time.  New
identifiers are fresh and contain no colon; `MaxTreesPerForest` is not negative.

A panic is recovered in the goroutine of a run, except while the loop of
`runTreeForest` is under way: there the deferred call at
internal/app/orchestrator.go:525-534 would end the run and leave its workers at
work without one, still registering the keys of their subtasks, and what is said
here of live runs, stages and registered keys would not cover them.  A panic in a
worker ends the process, which is a restart.

A cancelled context is a boolean of the run; cancelling the context of a single
subtask ends only its agent's call.  Which run added a subtask and which run
opened a stage are history fields, as are the channels of emitted events and the
records of watchdog marks.

## What turned out false, and exactly when

- *A task that awaits an answer is finished.*  A visit of the watchdog, made from
  a list taken while the task was running, can start a run on a task that has
  meanwhile asked its question; the run then sets it running without clearing
  `AwaitingUserInput` (`Safety.RunningAndAwaitingIsReachable`).  And a restart sets
  a finished task running whose log holds the sentence by which an old version
  reported interrupted runs (any line may, such as that of a renaming), also if the
  task awaits an answer (`Safety.RevivedAndAwaitingIsReachable`).  A step is safe, now and in every
  continuation without another such step, if and only if it is neither a visit to
  an awaiting task without a registered process nor a restart that revives an
  awaiting task (`Safety.SafeExactlyWhenHarmless`).
- *A watchdog tick revives idle running tasks.*  In every reachable state a visit
  starts a run if and only if no run of the task is alive, and while a task is
  running one of its runs is (`Safety.VisitStartsExactly`).  This rests on the cut
  above: the check at internal/app/orchestrator.go:560 and the write of Running at
  593-597 are one step.  A superseded run that is held up between them and writes
  late would leave what a tick could revive, a running task without a process.
- *The log gives back its last lines.*  Lines of 492 to 503 characters can be
  truncated a second time, because the clock counts on reading: a line survives
  if and only if it has at most 491 characters, or 494 and ends with three dots
  (`StoreLog.LogRoundTrip`).  The buffer rebuilt after a restart shows the lines
  of the buffer in memory if and only if the last appended lines have no adjacent
  repeats and all fit (`StoreLog.MemoryAgreesExactly`); a line of 500 characters
  does not (`StoreLog.LongLineIsCut`).
- *Argument deltas add up to the final arguments.*  Under the final item id they
  do if and only if no id of the call changes after its first arguments
  (`ProxyGrammar.StreamedArgumentsAgreeExactly`).  The item of a call is opened
  before its arguments if and only if its name comes in time
  (`ProxyGrammar.CallGrammar`; `ProxyGrammar.LateNameOpensLate` shows one that
  does not).
- *Listed files are served.*  They are if and only if the workspace root is not
  the root of the file system and the file is not itself the workspace of another
  task (`Workspace.ListedIsServedExactly`; `Workspace.RootFileIsRefused` and
  `Workspace.ForeignFileIsRefused` show both failures).
- *A deleted task leaves nothing behind.*  Its directory, though not its
  `forest.json`, is back if and only if one of the other files was written late: a
  usage, progress or log line, the schedule, the report or the goal of a subtask,
  or the output of an agent (`StoreHistory.DirectoryReturnsExactly`;
  `StoreHistory.LateWriteBringsDirectoryBack` has a case for each, such as the
  report of a worker that the deletion has just cancelled).
- *A deleted task stays deleted.*  It comes back, whole, if and only if the service
  restarts after the entry was dropped and before the removal of files begins
  (`Safety.DeletedTaskReturnsExactly`, `StoreHistory.CrashAnywhere`).  Nothing is
  said of a crash in the middle of the removal.
- *A restart gives back every task as it was.*  It does, but for three things.  The
  times of the last change and the last progress are those of the last write of the
  task, since log lines move them in memory alone; they are what memory had if and
  only if no log line has come since or the last one bears the same time
  (`StoreHistory.LogLinesAreForgotten`).  A finished, unstopped task is set running
  if and only if its log holds the sentence of an old version
  (`StoreModel.RecoveredTask`).  And a crash inside the writing of a task loses
  exactly the file that was being written, which is the whole task if that file is
  its `forest.json` (`StoreCrash.CrashInsideWrite`).
- *A parsed CSV table is the encoded one.*  It is if and only if no row is blank,
  however its fields are quoted (`Csv.CsvRoundTrip`).

## Model

| member | source | states |
|---|---|---|
| ProcessKeys.CoversOnlyOwnKeys | internal/app/orchestrator.go:1683-1702 | with colon-free ids the test by the prefix `id:` meets the keys of that task and of no other, also when one id is a prefix of another |
| ProcessKeys.RunKeysDistinct | internal/app/orchestrator.go:517-522 | two runs, of the same or of different tasks, never share a registration key |
| ProcessKeys.TreeKeyIsNotRunKey | internal/app/orchestrator.go:940-953 | the key of a subtask is never the key of a run |
| Ownership.CancelIsExact | internal/app/orchestrator.go:1683-1691 | cancelTaskProcesses finds every live run of its task and no run of another task |
| Ownership.CancelIsIsolated | internal/app/orchestrator.go:1683-1691 | cancelling a task leaves every run of other tasks as it was and no run of its own uncancelled |
| Ownership.UninterruptedIsActive | internal/app/orchestrator.go:549-556 | a run that passes the check of context and stop flag is the one named in activeRuns |
| Ownership.StepKeepsOwnership | internal/app/orchestrator.go:517-646 | every step of every goroutine keeps: running tasks have a live owner, all other runs of a task are cancelled, registrations and live runs correspond |
| LiveKeys.ProcessesIffLiveRun | internal/app/orchestrator.go:1693-1702 | hasTaskProcesses answers exactly whether a run of the task is alive |
| LiveKeys.WatchdogStartsOnlyOutdatedTasks | internal/app/watchdog.go:73-78 | a visit that starts a run finds no live run, and the task no longer running |
| LiveKeys.StepKeepsTreeKeys | internal/app/orchestrator.go:940-953 | in every step, a registered subtask key belongs to a live run that is executing that subtask |
| Stages.StageBelongsToOneRun | internal/app/orchestrator.go:585-600 | subtasks with the same stage number were added by the same run |
| Stages.JoinedStageIsFinished | internal/app/orchestrator.go:856-909 | once all workers are done, every subtask of the stage in a still existing task is finished |
| Stages.StepKeepsStages | internal/app/orchestrator.go:585-616 | every step keeps: stage numbers within the counter, each stage opened by one run, at most MaxTreesPerForest ordinary subtasks, workers matching subtasks, validation last |
| Flags.RunStepEffect | internal/app/orchestrator.go:538-646 | whatever step a run takes, it touches the flags of its own task only, by finishing or pausing it as the active run and then ending, or by opening a stage uninterrupted |
| Flags.OnlyTheOwnerActs | internal/app/orchestrator.go:550-583 | a run step that changes the flags or the counter of a task is a step of its active run |
| Flags.StepKeepsAgreement | internal/app/orchestrator.go:346-352 | every step keeps Status equal to GardenerStatus, and StopRequested implying finished and not awaiting |
| Flags.StepKeepsAwaiting | internal/app/orchestrator.go:1062-1084 | every step that is neither a harmful visit nor a harmful restart keeps: awaiting tasks are finished and none of their runs can still act |
| ForkJoin.StepKeepsSlots | internal/app/orchestrator.go:857-886 | under every interleaving the occupancy of the semaphore equals the number of workers holding a slot and stays within maxConcurrent |
| ForkJoin.StageCanMove | internal/app/orchestrator.go:856-890 | until the join some step of the stage is enabled, whatever was cancelled or stopped |
| ForkJoin.StageWorkFalls | internal/app/orchestrator.go:856-890 | every step of the stage lowers its remaining work and no step of anyone else changes the stage |
| Safety.StepKeepsInv | internal/app/orchestrator.go:517-646 | the whole invariant is inductive over all actions |
| Safety.ReachableIsSafe | internal/app/orchestrator.go:517-646 | the invariant holds in every state the service can reach |
| Safety.RunningTaskIsOwned | internal/app/orchestrator.go:1670-1691 | in every reachable state a running task is owned by the live run in activeRuns and every other live run of it is cancelled |
| Safety.StageDiscipline | internal/app/orchestrator.go:585-616 | in every reachable state: stage numbers within Forest, no stage shared by two runs, bounded stages, validation added once and after all ordinary subtasks finished |
| Safety.ForestGrowsByOne | internal/app/orchestrator.go:592-597 | over every step and every task that survives it Forest stays or grows by one, and only the active run adds; user actions, visits and restarts leave it alone |
| Safety.DeletedTaskNeverReturns | internal/app/orchestrator.go:490-493 | once the files of a deleted task have gone, no later step of its surviving runs or of anyone else brings it back |
| Safety.EntryGoesFirst | internal/app/store.go:421-437 | the first half of a deletion takes the entry, leaves the files and changes nothing else |
| Safety.DeletionTakesHalves | internal/app/store.go:421-449 | after the first half, over any steps without another one, the task is back if and only if a restart comes before the removal of its files |
| Safety.DeletedTaskReturnsExactly | internal/app/store.go:421-437 | a task whose entry has gone and whose files have not is back, over any steps without another deletion of it, if and only if a restart comes before the removal |
| Safety.VisitStartsExactly | internal/app/watchdog.go:73-78 | in every reachable state a visit starts a run if and only if no run of the task is alive, which is never so for a running task |
| Safety.SlotsAreBounded | internal/app/orchestrator.go:857-886 | in every reachable state the slots of a stage equal its holders and are at most maxConcurrent |
| Safety.JoinFindsAllFinished | internal/app/orchestrator.go:856-909 | in every reachable state in which a stage can be joined, all its subtasks are finished if the task still exists |
| Safety.StageTerminates | internal/app/orchestrator.go:856-890 | over any interleaved sequence of steps a stage takes at most its initial measure of steps before the join |
| Safety.FlagInvariant | internal/app/orchestrator.go:471-487 | over all runs of the service the flags agree, and awaiting implies finished as long as no harmful visit or restart happens |
| Safety.SafeExactlyWhenHarmless | internal/app/watchdog.go:70-78 | any step preserves "awaiting implies finished" in all continuations if and only if it neither starts a run on an awaiting task by a visit nor revives one by a restart |
| Safety.RunningAndAwaitingIsReachable | internal/app/watchdog.go:51-79 | a concrete history that ends with a task both running and awaiting an answer |
| Safety.RevivedAndAwaitingIsReachable | internal/app/store.go:286-289 | another one, by a restart that finds the sentence of an old version in the log |
| RunCourse.HeadDecides | internal/app/orchestrator.go:559-599 | a run that nobody halts ends by asking if and only if the plan asks, by finishing if and only if the plan is over, and otherwise opens the next stage with room for exactly the planned subtasks, or as many as the task allows; a halted run ends, finishing the task only as its active run |
| RunCourse.DecisionDecides | internal/app/orchestrator.go:617-643 | the same three ways for the answer after a stage; with work in it the run is back at the head with just that answer |
| RunCourse.StageIsFilled | internal/app/orchestrator.go:589-616 | over any interleaved steps, a stage whose run nobody halts has at its join exactly the planned number of ordinary subtasks, or the task's limit, and all of them are finished |
| RunCourse.RunBegins | internal/app/orchestrator.go:544-548 | a run of a missing task ends at once, any other goes on to initialise |
| RunCourse.RunPlans | internal/app/orchestrator.go:548-558 | after the initialisation a halted run ends and any other plans |
| RunCourse.PlanArrives | internal/app/orchestrator.go:558-559 | the plan reaches the head as it is, unless it asks |
| RunCourse.JoinValidates | internal/app/orchestrator.go:600-608 | after the join one validation subtask of the stage is added, registered and executed, unless the run is halted or the task gone |
| RunCourse.ValidationEnds | internal/app/orchestrator.go:608-616 | the validation subtask is finished and unregistered, nothing else of the task changes, and the run decides unless it is halted |
| RunCourse.ForkAdds | internal/app/orchestrator.go:859-876 | a turn of the loop adds one running subtask of the stage and one waiting worker for it; a halted run plans no more |
| RunCourse.WaitingAcquires | internal/app/orchestrator.go:879-881 | a waiting worker can take a slot exactly while there are fewer than maxConcurrent taken |
| RunCourse.WaitingGivesUp | internal/app/orchestrator.go:882-909 | it can give up exactly when its run is cancelled; then its subtask, and nothing else, becomes finished |
| RunCourse.HoldingStarts | internal/app/orchestrator.go:940-966 | a worker with a slot registers its subtask, sets it running and executes it, unless task or subtask is gone |
| RunCourse.ExecutingReturns | internal/app/orchestrator.go:984-1007 | when the agent returns the subtask, and nothing else, becomes finished and is unregistered |
| RunCourse.ReturnedReleases | internal/app/orchestrator.go:881-887 | the worker gives one slot back, of which there was at least one |
| ServiceCourse.CreateStarts | internal/app/orchestrator.go:228-240 | a new task is running with one new run, or, for a vague prompt, finished and awaiting an answer with none |
| ServiceCourse.SendTakesOver | internal/app/orchestrator.go:337-359 | a message sets the task running, takes back stop and question, leaves its subtasks, cancels exactly its runs and starts one |
| ServiceCourse.StopFinishes | internal/app/orchestrator.go:471-487 | a stop finishes the task and every subtask and changes nothing else |
| ServiceCourse.VisitLaunches | internal/app/watchdog.go:73-78 | a visit changes no task, and starts one run exactly when the task has none |
| ServiceCourse.ListNamesRunning | internal/app/store.go:397-409 | the watchdog's list names exactly the running tasks |
| ServiceCourse.ServiceComesUp | internal/app/orchestrator.go:56-68 | after a restart exactly the tasks with files are there, as they were but for ended subtasks and revived status, and exactly the running ones have one new run each, and no other run is left |
| OrchestratorObject.Orchestrator.CancelTaskProcesses | internal/app/orchestrator.go:1683-1691 | the loop over the registry cancels exactly the contexts of the covered keys and keeps the object valid |
| OrchestratorObject.Orchestrator.HasTaskProcesses | internal/app/orchestrator.go:1693-1702 | the loop answers whether any registered key is covered |
| OrchestratorObject.Orchestrator.StartForestRun | internal/app/orchestrator.go:517-536 | cancels the task's runs, then registers and starts the new one |
| OrchestratorObject.Orchestrator.CreateTask | internal/app/orchestrator.go:228-240 | takes the create step; a task whose prompt is not vague is then owned by its new run |
| OrchestratorObject.Orchestrator.SendMessage | internal/app/orchestrator.go:337-359 | an unknown task is reported and nothing changes; otherwise the send step, after which the new run owns the task and all its other runs are cancelled |
| OrchestratorObject.Orchestrator.StopTask | internal/app/orchestrator.go:457-488 | takes the stop step by its loop; the task and all its subtasks are then finished |
| OrchestratorObject.Orchestrator.SetStatus | internal/app/store.go:475-487 | the search loop changes the first subtask with the identifier and no other |
| OrchestratorObject.Orchestrator.IsInterrupted | internal/app/orchestrator.go:1665-1668 | context cancelled or stop requested |
| OrchestratorObject.Orchestrator.Recover | internal/app/orchestrator.go:525-533 | takes the panic step; a run that is not the active one leaves all tasks as they are |
| OrchestratorObject.Orchestrator.Begin | internal/app/orchestrator.go:544-548 | takes the begin step: a run of a missing task ends at once |
| OrchestratorObject.Orchestrator.AfterInit | internal/app/orchestrator.go:548-556 | takes the step after the initialisation; only the owner of a task goes on to plan |
| Protocol.NormalPlanIsConsistent | internal/app/orchestrator.go:1547-1577 | a normalized answer that asks has no subtasks and a question, its own if it has one; normalizing is idempotent and does not change whether it asks |
| OrchestratorObject.Orchestrator.LoopHead | internal/app/orchestrator.go:559-599 | takes the head step; a run that goes on owns the task, has raised the counter by one and has room for the planned subtasks, or for MaxTreesPerForest if these are fewer |
| OrchestratorObject.Orchestrator.ForkNext | internal/app/orchestrator.go:859-876 | takes one turn of the fan-out loop; the stage never has more than MaxTreesPerForest ordinary subtasks |
| OrchestratorObject.Orchestrator.AcquireSlot | internal/app/orchestrator.go:879-881 | takes the acquire step; one more worker holds a slot, and the holders stay within maxConcurrent |
| OrchestratorObject.Orchestrator.ReleaseSlot | internal/app/orchestrator.go:881-887 | takes the release step; one worker fewer holds a slot, and the semaphore was not empty |
| OrchestratorObject.Orchestrator.FinishTreeBeforeRun | internal/app/orchestrator.go:892-909 | takes the abort step; the subtask is finished if the task still exists |
| OrchestratorObject.Orchestrator.RunTree | internal/app/orchestrator.go:940-965 | takes the start step: key and status, unless task or subtask is gone |
| OrchestratorObject.Orchestrator.TreeReturns | internal/app/orchestrator.go:984-1007 | takes the return step; the subtask is finished if the task still exists |
| OrchestratorObject.Orchestrator.AfterJoin | internal/app/orchestrator.go:600-608 | takes the join step, before which all subtasks of the stage have finished |
| OrchestratorObject.Orchestrator.AfterValidation | internal/app/orchestrator.go:608-616 | takes the step after the validation subtask |
| OrchestratorObject.Orchestrator.AfterDecision | internal/app/orchestrator.go:617-644 | takes the step after the decision; only the owner of a task loops on |
| OrchestratorObject.Orchestrator.WatchdogVisit | internal/app/watchdog.go:73-78 | takes the visit step; it starts a run exactly when no run of the task is alive, and that run then owns the task |
| OrchestratorObject.Orchestrator.ListRunningTasks | internal/app/store.go:397-409 | takes the listing step by its loop |
| OrchestratorObject.Orchestrator.OpenNextStage | internal/app/orchestrator.go:589-599 | opens the next stage with room for the planned subtasks, or for MaxTreesPerForest if these are fewer |
| OrchestratorObject.Orchestrator.Restart | internal/app/orchestrator.go:56-68 | takes the restart step: the tasks on disk, half-deleted ones included, loaded with their subtasks ended and revived where the log says so, then the unfinished ones go on |
| OrchestratorObject.Orchestrator.ResumeUnfinished | internal/app/orchestrator.go:56-68 | the loop resumes, in order, exactly the tasks to be continued |
| OrchestratorObject.ToContinueSelects | internal/app/orchestrator.go:58-60 | the tasks to be continued are those running and not stopped |
| OrchestratorObject.ToContinueIsDistinct | internal/app/orchestrator.go:56-68 | no task is resumed twice |
| OrchestratorObject.ResumptionsAreComplete | internal/app/orchestrator.go:56-68 | the loop performs exactly the resumptions of the protocol's restart step |
| Watchdog.LatestTaskActivity | internal/app/runtime.go:86-116 | the result is the maximum of all counted times, or of the fallback, and none only without any |
| Watchdog.LatestIsUnique | internal/app/runtime.go:86-116 | that maximum is unique |
| Watchdog.IdleExactlyWhenAllOld | internal/app/watchdog.go:55-58 | the test on whole idle seconds passes if and only if there is activity and all of it is at least staleAfter old |
| Watchdog.HasRecentWatchdogCue | internal/app/runtime.go:153-172 | the backward search finds a cue if and only if one exists with no older system message behind it |
| Watchdog.Loop.RunWatchdogOnce | internal/app/watchdog.go:47-80 | a tick without interference lists the running tasks and visits each of them |
| Watchdog.Loop.ListRunningTasks | internal/app/store.go:397-409 | the loop copies exactly the running tasks |
| Watchdog.Loop.VisitOne | internal/app/watchdog.go:51-79 | one turn of the loop decides by its copy and writes to whatever the task is by then, also when it is gone |
| Watchdog.DueExactly | internal/app/watchdog.go:55-64 | the three tests pass together exactly when all activity is old, the last mark is old and there is no recent cue |
| Watchdog.MarksAreRateLimited | internal/app/watchdog.go:59-72 | in any history of listings and visits, with changes, deletions and crashes between any two of them, two marks of one task are at least staleAfter apart |
| Watchdog.WatchdogIsRestrained | internal/app/watchdog.go:51-79 | in any such history every mark and every start was made for a copy that was running with all its activity staleAfter old, and every start at a moment without a registered process |
| Watchdog.MarkedIsNotDue | internal/app/watchdog.go:69-78 | a mark counts as activity: the task is not due before staleAfter has passed |
| WatchdogCourse.DueIsStale | internal/app/watchdog.go:55-64 | a task is due exactly when it has activity and all of it, and its last mark, is at least staleAfter old and no cue has been given since its latest activity or for half an hour |
| WatchdogCourse.VisitActsExactly | internal/app/watchdog.go:51-79 | a visit marks and starts exactly when the copy is due, the start only without a process, and changes no other task |
| WatchdogCourse.TickActsExactly | internal/app/watchdog.go:47-80 | an undisturbed tick marks exactly the running, stale tasks and starts a run for exactly those of them without a process |
| Proxy.StreamChatAsResponses | internal/compat/proxy.go:401-499 | the program emits the event sequence of the translation, for every list of lines |
| Proxy.ReadChunk | internal/compat/proxy.go:439-473 | the loop over choices folds the steps of their deltas in order |
| Proxy.ReadContent | internal/compat/proxy.go:440-449 | a text delta opens the item at most once and is appended |
| Proxy.ReadTools | internal/compat/proxy.go:450-472 | the loop over tool deltas folds their steps |
| Proxy.ApplyToolDelta | internal/compat/proxy.go:451-471 | one tool delta changes only its own call and emits only for it |
| Proxy.EndToolCalls | internal/compat/proxy.go:485-494 | ordered calls end one after the other, numbered on from the text item |
| Proxy.FinishStream | internal/compat/proxy.go:475-498 | everything after the read loop, ending with the completed output |
| Proxy.OrderedToolCalls | internal/compat/proxy.go:501-509 | the loop returns the known indices below the number of calls |
| Proxy.PresentIsComplete | internal/compat/proxy.go:501-509 | those indices are strictly increasing and none below the bound is missing |
| Proxy.ReadLinesFlattens | internal/compat/proxy.go:420-474 | reading line by line equals one flat fold over all deltas, so line boundaries do not matter |
| ProxyStreams.CallsAreIndependent | internal/compat/proxy.go:450-472 | the state and the events of a call are those it would have alone, however the deltas of calls and text interleave |
| ProxyStreams.TextIsStreamed | internal/compat/proxy.go:440-449 | the text channel opens once, before the first delta and only with text, and its deltas are the text in order |
| ProxyStreams.FinalCall | internal/compat/proxy.go:451-471 | a call ends with the last id, the last name and all arguments in order |
| ProxyStreams.OutputIgnoresChunks | internal/compat/proxy.go:401-499 | the completed output depends only on the whole text and, per call, on the whole arguments and the last id and name |
| ProxyStreams.SettledExactly | internal/compat/proxy.go:456-471 | the argument deltas under the final id give the arguments if and only if the id has settled before the first of them |
| ProxyGrammar.FirstAndLast | internal/compat/proxy.go:416-498 | response.created is the first event and no other, response.completed the last and no other |
| ProxyGrammar.TextGrammar | internal/compat/proxy.go:440-484 | all text events: opened once, the deltas, the done events with their concatenation, which is the item that comes first in the output |
| ProxyGrammar.StreamedTextAgrees | internal/compat/proxy.go:440-484 | the text deltas of the whole stream add up to the text of the one message that comes first in the completed output, or to nothing if there is none |
| ProxyGrammar.CallGrammar | internal/compat/proxy.go:450-494 | a call of the output is added by exactly one event, its two done events come last and carry its position in the completed output, and it is opened first if and only if its name comes in time |
| ProxyGrammar.CallInTranslation | internal/compat/proxy.go:401-499 | these are all events of the call in the whole stream |
| ProxyGrammar.DeltaAddsExactly | internal/compat/proxy.go:451-471 | a delta adds the opening if it gives the first name, with the ids, name and arguments so far, and then its own arguments, if any, under the id so far |
| ProxyLines.AllContentIsShown | internal/compat/proxy.go:420-449 | the text deltas of the whole stream add up to the contents of all choices of the chunks before the end mark |
| ProxyLines.DeltasComeInOrder | internal/compat/proxy.go:439-473 | text and argument deltas together are those of the choices, one for one and in the same order |
| ProxyLines.CompletedExactly | internal/compat/proxy.go:475-498 | the one completed event has the whole text as its first item, then every call with an index below the number of calls, by index, each with its last id, last name and all its arguments in those chunks, and the usage of the last chunk that states one |
| ProxyGrammar.DenseCallsAreAllOrdered | internal/compat/proxy.go:501-509 | with indices 0..n-1 every call is in the output |
| ProxyGrammar.StreamedArgumentsAgreeExactly | internal/compat/proxy.go:451-494 | with ids that differ between calls, collecting from the whole stream the argument deltas that carry the id of an item of the completed output gives that item's arguments if and only if the id of its call has settled in time |
| ProxyGrammar.ChangingIdLosesArguments | internal/compat/proxy.go:456-459 | two deltas after which a client that follows the final id has lost the arguments |
| ProxyGrammar.LateNameOpensLate | internal/compat/proxy.go:460-471 | two deltas after which a client has seen arguments of an item that was not yet opened |
| ProxyMessages.NormalizeChatMessages | internal/compat/proxy.go:354-369 | the loop computes the merged system message and the others in order |
| ProxyMessages.NormalizedIsStable | internal/compat/proxy.go:354-369 | at most one plain system message is left, in front, with the whole system text; the others keep their order; normalizing again changes nothing |
| ProxyMessages.NormalizedExactly | internal/compat/proxy.go:354-369 | one system message with the texts of all plain ones, a blank line between them, if there are any, then all other messages unchanged and in order |
| Usage.UsageRecorder.Record | internal/app/usage.go:68-95 | which lines are written, and when the recorder expects a number |
| Usage.RecordCountsItsWindow | internal/app/usage.go:214-294 | a record carries the last input, cached and output counts since the last model line or record, whatever the lines between, and the stated total, or their sum when that is 0 |
| Usage.ParseUsageFile | internal/app/usage.go:139-169 | the loop yields the records of the fold over all events |
| Usage.Demultiplexed | internal/app/usage.go:139-169 | for any interleaving, the records and the state of a key are those of its events alone |
| Usage.FilterSimulates | internal/app/usage.go:68-95 | reading all lines simulates reading the written ones; the link is that the reader expecting a total implies the recorder expecting it |
| Usage.FilteringLosesNothing | internal/app/usage.go:68-95 | reading back what the recorders of all agents wrote yields the very records of reading every cleaned line |
| UsageReader.ReadsExactly | internal/app/usage.go:214-290 | line i of an agent's file yields a record if and only if it states a total, or is a number that a line of the kind "tokens used" awaits; the record has the last model, the counts since, the stated total or their sum, and task, source, time and identifiers of its event |
| UsageReader.KeysTellAgents | internal/app/usage.go:154-163 | the reader's key tells agents apart: equal if and only if both name the same run, or none and the same source, for run identifiers and source types without a colon |
| UsageReader.AgentsAgree | internal/app/usage.go:57-66 | then all lines of a key are stamped alike, which the filter needs, if and only if each agent stamps its own lines alike |
| UsageReader.ColonsConfuse | internal/app/usage.go:154-158 | a run identifier with a colon, whose key is that of another source |
| UsageReader.AgentsAreIndependent | internal/app/usage.go:139-169 | in any interleaving, the records of an agent are those of a file that holds only its lines |
| UsageReader.WritesExactly | internal/app/usage.go:68-95 | a line is written if and only if it names a model, states a count or is of the kind "tokens used", or is a number with such a line before it and no number in between |
| Usage.ExpectationsDiffer | internal/app/usage.go:80-86 | a line after which the two flags differ, so the link cannot be an equality |
| UsageSummary.SortByTime | internal/app/usage.go:297-299 | some order by time of the same records |
| UsageSummary.DedupeUsageRecords | internal/app/usage.go:296-317 | the result is deduplicated: one positive record per key, an earliest one, in time order |
| UsageSummary.DedupeKeepsOnePerKey | internal/app/usage.go:296-317 | keeping the first record of each key of any time order is such a deduplication |
| UsageSummary.DedupeIsIdempotent | internal/app/usage.go:296-317 | deduplicating again keeps the same records, in the same order when times differ |
| UsageSummary.KeysTellReports | internal/app/usage.go:296-317 | two records have one key if and only if both name the same task, run, model and total, or neither names a run and their identifiers are equal |
| UsageSummary.GroupsCountModels | internal/app/usage.go:319-371 | every entry has the tokens and the number of exactly the records of its model, unnamed ones counted as unknown, and every record has an entry |
| UsageSummary.ListModels | internal/app/usage.go:358-360 | every entry of the map once, in some order |
| UsageSummary.SortByTokens | internal/app/usage.go:361-363 | the same entries by falling totals |
| UsageSummary.SummarizeUsage | internal/app/usage.go:319-371 | the grand total, one exact entry per model, sorted, cut after the limit |
| UsageSummary.SummaryConserves | internal/app/usage.go:319-371 | the totals of all models sum to the grand total and their run counts to the number of records |
| UsageSummary.NoDroppedModelBeatsAKeptOne | internal/app/usage.go:361-366 | no model that was cut off has more tokens than one that was kept |
| Stamps.ReadOfStamp | internal/app/store.go:547-547 | reading a stamp of section 5.6 of RFC 3339 gives back the moment it was written from, zone included |
| Stamps.ReadOfFraction | internal/app/store.go:881-889 | a fraction of a second of any length is read over |
| Stamps.DateDigits | internal/app/store.go:547-547 | the date has its digits at the places the standard gives them |
| Stamps.ClockDigits | internal/app/store.go:527-527 | so has the clock time |
| Stamps.ZoneDigits | internal/app/store.go:547-547 | and the offset, with its sign, or the letter Z for none |
| StoreLog.TaskLog.AppendGardenerLog | internal/app/store.go:521-549 | blank lines change nothing; otherwise the buffer takes the entry unless it repeats the last, and the file always |
| StoreLog.CompactIsLine | internal/app/store.go:742-753 | a compacted line is empty exactly for blank input, and otherwise single-spaced, trimmed and at most 503 characters long |
| StoreLog.CompactOfWords | internal/app/store.go:742-753 | whatever white space stands around and between its words, line ends included, a text is compacted to the words with single blanks, cut after 500 characters |
| StoreLog.BufferRefinesHistory | internal/app/store.go:533-542 | the buffer is the last 80 entries of the whole history with adjacent repeats collapsed |
| StoreLog.StringsSplitLines | internal/app/store.go:901-917 | the index loop returns the non-empty lines |
| StoreLog.LinesOfEnded | internal/app/store.go:901-917 | of any lines with their ends, and a last one with or without, the non-empty ones come back in order |
| StoreLog.ReadLineOfLogged | internal/app/store.go:873-892 | reading a logged line gives its clock and its text, cut to 500 characters |
| StoreLog.RecentIsLast80 | internal/app/store.go:893-897 | up to 80 lines are all kept, of more the last 80 |
| StoreLog.ReadLineWithoutStamp | internal/app/store.go:873-892 | a line with no stamp in brackets in front is kept, cut to 500 characters |
| StoreLog.ReadLineWithBadStamp | internal/app/store.go:877-891 | a stamp that cannot be read is dropped and the text behind it kept |
| StoreLog.ReadGardenerProgress | internal/app/store.go:868-899 | the last 80 readable lines of the file |
| StoreLog.FitsExactly | internal/app/store.go:749-751 | an entry survives the second truncation if and only if its line fits |
| StoreLog.LogRoundTrip | internal/app/store.go:521-549 | the file gives back as many lines as were appended, up to 80, and they are the appended ones, clock and line, if and only if each of them fits |
| StoreLog.MemoryAgreesExactly | internal/app/store.go:533-542 | the buffer in memory and the one reloaded from the file show the same lines if and only if the last appended lines have no adjacent repeats and all fit |
| StoreLog.LongLineIsCut | internal/app/store.go:868-899 | a line of 500 characters, whole in memory and cut to 491 and three dots after a restart |
| StoreModel.RecoveredTask | internal/app/store.go:225-304 | after Load every subtask is finished, a task runs if and only if its file says so or it is finished, unstopped and its log holds the sentence of an old version, and messages and valid subtasks are those of the disk, in order of stage and creation |
| StoreModel.PersistMirrors | internal/app/store.go:591-619 | after a write the directory holds the task, its messages and every subtask |
| StoreModel.RestartRestores | internal/app/store.go:225-304 | from a directory that mirrors a task, Load gives back that task, with its subtasks ended, revived or not as its log says, and with the times of last change and progress of the disk |
| StoreModel.LoadedFromFiles | internal/app/store.go:243-299 | field by field, every loaded task and subtask has what its files say: only statuses, the completion time of subtasks that were running, old names of stages and limits, a blank scratch path and an engine that cannot serve the mode are changed |
| StoreModel.LoadsOwnNames | internal/app/store.go:244-246 | a directory is loaded if and only if its task carries the directory's own safe name |
| StoreModel.LoadsOwnTrees | internal/app/store.go:260-264 | and a subtask if and only if its file does |
| StorePaths.SafeIdExactly | internal/app/store.go:306-312 | trimmed, a safe identifier is a plain file name without backslashes |
| StorePaths.SafeIdStaysBelow | internal/app/store.go:306-312 | joined to any root it names a path directly below that root |
| StoreModel.SecondLoadChangesNothing | internal/app/store.go:225-304 | loading again changes no task but the order of subtasks that stage and creation time leave open, and writes the same files |
| StoreModel.ClampKeepsOrder | internal/app/store.go:345-370 | the clamp keeps the order of times, is exact on those that fit 64 bits, and merges only times beyond the same end |
| StoreObject.Store.PersistTask | internal/app/store.go:591-619 | the files are written one by one, through the states of StoreCrash, and only in the directory of the task; files of other subtasks stay |
| StoreObject.Store.constructor | internal/app/store.go:41-59 | whatever the directories hold, loading them makes a store whose memory and disk are in step |
| StoreHistory.SaveKeepsInStep | internal/app/store.go:372-384 | storing a task under a new safe id, or a changed task that keeps its subtasks, keeps memory and disk in step |
| StoreHistory.SavedIsOnDisk | internal/app/store.go:591-619 | a stored task is in memory and, with all its fields, messages and subtasks, in its own files, and nothing else has changed, neither other directories nor other files in its own |
| StoreHistory.SettingsReachEveryTask | internal/app/store.go:188-207 | after a settings change every task has the new engine and mode, and nothing but these and the time of the change differs |
| StoreHistory.SettingsAreUsable | internal/app/store.go:126-138 | the settings themselves have a known mode and an engine that can serve it, and keep what was asked for if they can |
| StoreHistory.SmallStepKeepsInStep | internal/app/store.go:421-449 | log lines, which change memory and disk separately, writes of other files, and both halves of a deletion keep memory and disk in step, half-deleted tasks included |
| StoreObject.Store.UpdateTask | internal/app/store.go:451-466 | an unknown task is reported and nothing is written; otherwise memory and disk change together and stay in step |
| StoreObject.Store.AppendUsageEvent | internal/app/usage.go:97-112 | a line that is not blank makes sure of the directory, even of a task that is gone |
| StoreObject.Store.AppendGardenerLog | internal/app/store.go:521-549 | a blank line or a missing task changes nothing; otherwise the two times in memory and then the file, in two steps |
| StoreObject.Store.WriteSchedule | internal/app/store.go:551-576 | a missing task is reported; otherwise a write that makes sure of the directory |
| StoreObject.Store.AppendTreeProgress | internal/app/store.go:502-519 | an update, then an append that happens even when the task is gone |
| StoreObject.Store.ApplySettingsRuntime | internal/app/store.go:188-207 | exactly the tasks that do not suit the new settings are changed and written, and memory and disk stay in step |
| StoreObject.Store.DeleteTask | internal/app/store.go:421-449 | undisturbed, entry and files are gone, as DeletedStaysGone asks for; an unknown task is reported |
| StoreObject.Store.Load | internal/app/store.go:225-304 | the loop over directories loads exactly the valid ones and rewrites them |
| StoreObject.Store.RestartStore | internal/app/store.go:225-304 | the restart step, which puts memory and disk in step from any state |
| StoreObject.LoadTask | internal/app/store.go:247-301 | one directory read, normalized, sorted and ended |
| StoreObject.LoadHeader | internal/app/store.go:243-285 | everything of a task but its subtasks, normalized in place |
| StoreObject.ReadTrees | internal/app/store.go:254-272 | every valid subtask file once |
| StoreObject.SortTrees | internal/app/store.go:273-278 | the same subtasks by stage and creation order |
| StoreObject.EndTrees | internal/app/store.go:290-299 | every subtask ended in place |
| StoreHistory.DeletedStaysGone | internal/app/store.go:421-466 | over any sequence of updates, log and usage lines, progress, settings changes, other deletions and restarts, a deleted task is back neither in memory nor in its forest.json |
| StoreHistory.DirectoryReturnsExactly | internal/app/orchestrator.go:892-903 | its directory is back if and only if a file other than those of persistTaskLocked was written late |
| StoreHistory.LateWriteBringsDirectoryBack | internal/app/orchestrator.go:1231-1236 | for each kind of other file, a deletion followed by a late write of it, after which the directory is back without the task |
| StoreHistory.StepKeepsInStep | internal/app/store.go:591-619 | every step keeps memory and disk in step |
| StoreHistory.RestartGivesInStep | internal/app/store.go:225-304 | from any directories a restart puts memory and disk in step |
| StoreHistory.CrashAnywhere | internal/app/store.go:421-449 | a crash between any two steps: every live task comes back as it was, ended, with the times of the disk and revived if its log says so, and so, whole, does every task that a deletion had forgotten without having begun to remove its files; no other task comes back |
| StoreHistory.LogLinesAreForgotten | internal/app/store.go:542-545 | a restart brings back the times of the last write of a task; they are those of memory if and only if no log line has come since or the last one bears the same time |
| StoreCrash.TornTaskSurvives | internal/app/store.go:603-617 | from a directory of which some files have been rewritten, and the next perhaps emptied, Load gives the fields of the task all old or all new, and every subtask old or new but for the one of the emptied file |
| StoreCrash.CrashInsideWrite | internal/app/store.go:591-619 | a crash after any number of files of an update, or inside one: the task is gone if and only if forest.json was being written, otherwise it survives as above; every other task comes back as after a crash between two steps |
| Csv.ParseCSV | web/static/app.js:1616-1637 | the character loop, with its early return, computes the rows that are not blank of the first rows of the table |
| Csv.PreviewIsPrefix | web/static/app.js:1631-1631 | for every limit the limited result is a beginning of the full one and keeps to the limit |
| Csv.CsvRoundTrip | web/static/app.js:1616-1637 | parsing any encoding of any table, each field quoted or, where it may be, plain, with either line end and with or without the last one, gives its rows that have something to see, hence the table if and only if all have |
| Csv.LimitedRoundTrip | web/static/app.js:1631-1631 | with a limit it gives those of the first rows of the table, at least one |
| Paths.PrefixTest | internal/app/server.go:979-982 | the textual prefix test is the proper path prefix, except below the root of the file system, where it always fails |
| Paths.CleanOfPath | internal/app/server.go:891-896 | a relative path of plain names is clean, relative, and its base is its last name |
| Paths.CleanIsPath | internal/app/server.go:891-895 | whatever was asked for, a clean text that passes the checks is a path of plain names |
| Paths.JoinOfPath | internal/app/server.go:900-905 | joining such a path to a root descends from the root |
| Paths.PartsVanish | internal/app/server.go:891-891 | empty parts and single dots mean nothing, and a name cancels with two dots after it, wherever they stand |
| Paths.LeadingDots | internal/app/server.go:891-892 | two dots in front go in an absolute path and stay in a relative one |
| Workspace.IsOtherTaskWorkspaceRoot | internal/app/server.go:928-953 | the search answers whether some other task's workspace, not the current one, is exactly this path |
| Workspace.IsInsideOtherTaskWorkspace | internal/app/server.go:955-987 | the search answers whether the path is in another task's workspace that does not enclose the current one |
| Workspace.Walk | internal/app/server.go:837-880 | the recursive walk lists the first 500 files of the unpruned part |
| Workspace.WalkAll | internal/app/server.go:837-880 | the same for the entries of one directory, stopping early |
| Workspace.VisitedAreListed | internal/app/server.go:841-850 | every visited file lies below the root, has passed the filters, and no directory on its way is another task's workspace |
| Workspace.VisitAllExactly | internal/app/server.go:837-880 | without its limit the walk finds a file if and only if no directory on the way to it is pruned and it passes the filters |
| Workspace.VisitedOnce | internal/app/server.go:837-880 | and finds none twice |
| Workspace.ListsExactly | internal/app/server.go:855-874 | a file passes if the filters keep it, its first name does not start with two dots, and its own name, in any case of letters, is none of the hidden, left-over or secret ones |
| Workspace.SkipsExactly | internal/app/server.go:842-848 | a directory is pruned for one of six names, or as the workspace of another task that is not the current root |
| Workspace.ListWorkspaceFiles | internal/app/server.go:822-883 | the relative paths of the first 500 of those files |
| Workspace.ServeWorkspaceFile | internal/app/server.go:885-909 | the checks on texts amount to the checks on paths |
| Workspace.ServedIsConfined | internal/app/server.go:885-909 | for any request, what is served lies strictly below the root, has no sensitive name and is in no foreign workspace |
| Workspace.ServesExactly | internal/app/server.go:885-909 | a request for a path of names, with or without a slash in front, is bad if it starts with two dots, refused for a secret name, a root that is that of the file system or another task's workspace, and else served |
| Workspace.ListedIsServedExactly | internal/app/server.go:885-909 | a listed file is served if and only if the root is not that of the file system and the file is not itself another task's workspace |
| Workspace.RootFileIsRefused | internal/app/server.go:900-905 | a listed file in a workspace at the root of the file system, which is refused |
| Workspace.ForeignFileIsRefused | internal/app/server.go:906-909 | a listed file that another task names as its workspace, which is refused |

## Left out

- The HTTP layer, sockets, process control, file permissions, disk errors and JSON: the disk is a map, a file that is missing or not readable is `None`, and writes succeed.
- Interleavings inside the stretches named above, for instance between the check of the active run and the finish that follows, or a stop between the write and the start of a run.
- Message texts, prompts, the contents of reports, goals and the schedule file, renaming, progress questions and the phase and cue texts of the runtime view.
- Retries of unreadable answers of the model: an answer is one plan, and an unreadable one counts as a finished plan.
- Patterns of usage lines: a line is what the patterns say about it, with the overlap of a total that also starts with "tokens used"; the cleaning of lines, legacy log files, prices and costs are not modelled.
- Usage.BuildRecord: identifiers are injective terms instead of hashes, and the joined key of a duplicate is a tuple; the display name is chosen by lower-casing ASCII letters.
- 64-bit overflow of token counts and of idle times: numbers are unbounded.
- Output indices of streamed (not done) events, which are always 0, and tool calls with indices outside 0..n-1, which the program never ends.
- Proxy.StreamChatAsResponses: the id of a call without one is a function of its index, which stands for clock and index; the error of a broken upstream body is not modelled.
- The framing of upstream lines: a line is ignored, the end mark, or a parsed chunk.
- The building of chat requests other than the merging of system messages.
- StoreModel.RecoveredTask: does not model the rebuilding of progress buffers by Load, which StoreLog models on its own; that a log holds the sentence of an old version is one bit of its directory.
- StoreModel.ClampKeepsOrder: the clamped value, not the conversion from a calendar time.
- Stamps.ReadOfStamp: the reader is the grammar of RFC 3339 with optional fractions; forms that the Go parser accepts beyond it, such as a one-digit hour, are not modelled.
- StoreLog.TaskLog.AppendGardenerLog: the clock prefix is recognised by characters, the program does it by bytes; the two differ only for entries that do not start with a clock time.
- StoreObject.Store.AppendTreeProgress: the buffer of a subtask is part of the update function; it follows the same rule as the buffer of a task.
- StoreObject.Store.DeleteTask: the removal of managed workspace and scratch directories is not modelled.
- StoreHistory.CrashAnywhere: a crash in the middle of the removal of a directory is not modelled; the removal is one step, and so is a settings change, whose tasks are written one by one under the lock.
- StoreCrash.CrashInsideWrite: a crash while a new task is written for the first time is not modelled; an emptied or half-written file is one that cannot be read.
- Orphaned workers of a run that panics inside runTreeForest, as said above.
- Watchdog.Loop.VisitOne: the registry of process keys is the set of busy tasks; that it is exact is the matter of LiveKeys.ProcessesIffLiveRun.
- Alternative spellings of model modes and engines, which all map to the modelled values.
- Workspace.ListWorkspaceFiles: the final sorting by path and the size, time and subtask fields of an entry; lower-casing is that of ASCII letters; the age and stage filters are a parameter.
- Workspace.ServeWorkspaceFile: existence, kind and size of the file.
- Csv.ParseCSV: the conversion of other values to text before parsing.
- The relay, browser rendering, event hub and packaging scripts.
