/** The run and stage protocol of the orchestrator as a step system.

    User actions, watchdog ticks and restarts interleave freely with the run
    goroutines and with the worker goroutines of each stage.  A step is one
    stretch of code between two points at which another goroutine may be seen
    to act; README.md lists the stretches that are taken as one step. */
module Protocol {
  import opened ProcessKeys
  import opened Text

  datatype Status = Running | Finished

  // `run` is a history field: the run that added the subtask.
  datatype Tree = Tree(id: string, stage: nat, validation: bool, status: Status, run: string)

  // `openedBy` is a history field: openedBy[n-1] is the run that opened stage n.
  datatype Task = Task(
    status: Status,
    gardenerStatus: Status,
    stopRequested: bool,
    awaitingUser: bool,
    forest: nat,
    maxTrees: nat,
    trees: seq<Tree>,
    openedBy: seq<string>)

  // A parsed answer of the model; only the number of subtasks matters here.
  datatype Plan = Plan(finished: bool, needsClarification: bool, question: string, trees: nat)

  datatype WorkerPc = Waiting | Holding | Executing | Returned | Done

  datatype Worker = Worker(tree: string, pc: WorkerPc)

  datatype Pc =
    | Starting
    | Initialising
    | Planning
    | AtHead(plan: Plan)
    | Forking(stage: nat, rest: nat, workers: seq<Worker>, slots: nat)
    | Validating(stage: nat, tree: string)
    | Deciding(stage: nat)

  datatype Run = Run(task: string, cancelled: bool, pc: Pc)

  // What a registered cancel function cancels.
  datatype Handle = RunContext(run: string) | TreeContext(run: string, tree: string)

  // `runs` are the live run goroutines; `ids` is every identifier handed out so
  // far; `snapshot` is the watchdog's list of running tasks still to be visited;
  // `removing` are the tasks that a deletion has dropped from memory but whose
  // files it has not begun to remove.
  datatype State = State(
    tasks: map<string, Task>,
    removing: map<string, Task>,
    activeRuns: map<string, string>,
    cancels: map<string, Handle>,
    runs: map<string, Run>,
    ids: set<string>,
    snapshot: set<string>,
    maxConcurrent: nat)

  // ---- plans ----

  const DEFAULT_QUESTION := "more information is needed"

  function NormalizePlan(p: Plan): Plan {
    if p.needsClarification then
      Plan(true, true, if Blank(p.question) then DEFAULT_QUESTION else p.question, 0)
    else p
  }

  predicate PlanNeedsClarification(p: Plan) {
    p.needsClarification || (!Blank(p.question) && p.trees == 0)
  }

  // A question wins over subtasks, and normalizing decides nothing new.
  lemma {:induction false} NormalPlanIsConsistent(p: Plan)
    ensures var q := NormalizePlan(p);
      && NormalizePlan(q) == q
      && (PlanNeedsClarification(q) <==> PlanNeedsClarification(p))
      && (p.needsClarification ==> q.finished && q.trees == 0 && !Blank(q.question))
      && (p.needsClarification && !Blank(p.question) ==> q.question == p.question)
      && (!p.needsClarification ==> q == p)
  {
    assert !IsSpace(DEFAULT_QUESTION[0]);
  }

  // ---- subtasks of a task ----

  predicate HasTree(trees: seq<Tree>, id: string) {
    exists i :: 0 <= i < |trees| && trees[i].id == id
  }

  // UpdateTree stops at the first match.
  function SetTreeStatus(trees: seq<Tree>, id: string, status: Status): seq<Tree> {
    if trees == [] then []
    else if trees[0].id == id then [trees[0].(status := status)] + trees[1..]
    else [trees[0]] + SetTreeStatus(trees[1..], id, status)
  }

  function FinishTree(t: Tree): Tree {
    t.(status := Finished)
  }

  function FinishTrees(trees: seq<Tree>): seq<Tree> {
    seq(|trees|, i requires 0 <= i < |trees| => FinishTree(trees[i]))
  }

  // How many ordinary (non-validation) subtasks stage n has.
  function Ordinary(trees: seq<Tree>, n: nat): nat {
    if trees == [] then 0
    else Ordinary(trees[..|trees| - 1], n) +
         (if trees[|trees| - 1].stage == n && !trees[|trees| - 1].validation then 1 else 0)
  }

  // ---- building blocks ----

  predicate Active(s: State, task: string, run: string) {
    task in s.activeRuns && s.activeRuns[task] == run
  }

  predicate HasProcesses(s: State, task: string) {
    exists key :: key in s.cancels && Covers(task, key)
  }

  function CancelledBy(s: State, task: string): set<string> {
    set key | key in s.cancels && Covers(task, key) && s.cancels[key].RunContext? :: s.cancels[key].run
  }

  function CancelTask(s: State, task: string): State {
    var hit := CancelledBy(s, task);
    s.(runs := map r | r in s.runs :: if r in hit then s.runs[r].(cancelled := true) else s.runs[r])
  }

  // registerRun and the start of the goroutine.
  function Launch(s: State, task: string, run: string): State {
    s.(activeRuns := s.activeRuns[task := run],
       cancels := s.cancels[RunKey(task, run) := RunContext(run)],
       runs := s.runs[run := Run(task, false, Starting)],
       ids := s.ids + {run})
  }

  function StartRun(s: State, task: string, run: string): State {
    Launch(CancelTask(s, task), task, run)
  }

  function WithTask(s: State, task: string, k: Task): State {
    s.(tasks := s.tasks[task := k])
  }

  function WithPc(s: State, run: string, pc: Pc): State
    requires run in s.runs
  {
    s.(runs := s.runs[run := s.runs[run].(pc := pc)])
  }

  function ExitRun(s: State, run: string): State
    requires run in s.runs
  {
    s.(runs := s.runs - {run}, cancels := s.cancels - {RunKey(s.runs[run].task, run)})
  }

  function MarkRunning(k: Task): Task {
    k.(status := Running, gardenerStatus := Running, stopRequested := false, awaitingUser := false)
  }

  function MarkFinished(k: Task): Task {
    k.(status := Finished, gardenerStatus := Finished, awaitingUser := false)
  }

  function MarkPaused(k: Task): Task {
    k.(status := Finished, gardenerStatus := Finished, awaitingUser := true, stopRequested := false)
  }

  function MarkStopped(k: Task): Task {
    k.(stopRequested := true, status := Finished, gardenerStatus := Finished, awaitingUser := false,
       trees := FinishTrees(k.trees))
  }

  function OpenStage(k: Task, run: string): Task {
    k.(forest := k.forest + 1, status := Running, gardenerStatus := Running, openedBy := k.openedBy + [run])
  }

  // Load ends all subtasks.  A finished task is set running if its log holds the
  // sentence by which an old version reported an interrupted run.
  function Recovered(k: Task, revived: bool): Task {
    var ended := k.(trees := FinishTrees(k.trees));
    if revived then ended.(status := Running, gardenerStatus := Running) else ended
  }

  predicate Revivable(k: Task) {
    k.status.Finished? && !k.stopRequested
  }

  function FinishTask(s: State, task: string): State {
    if task in s.tasks then WithTask(s, task, MarkFinished(s.tasks[task])) else s
  }

  function PauseTask(s: State, task: string): State {
    if task in s.tasks then WithTask(s, task, MarkPaused(s.tasks[task])) else s
  }

  function UpdateTree(s: State, task: string, tree: string, status: Status): State {
    if task in s.tasks
    then WithTask(s, task, s.tasks[task].(trees := SetTreeStatus(s.tasks[task].trees, tree, status)))
    else s
  }

  function AddTree(s: State, task: string, tree: Tree): State {
    if task in s.tasks
    then WithTask(s, task, s.tasks[task].(trees := s.tasks[task].trees + [tree]))
    else s
  }

  // The exits of runForest: only the active run touches the task.
  function QuitFinished(s: State, run: string): State
    requires run in s.runs
  {
    var task := s.runs[run].task;
    ExitRun(if Active(s, task, run) then FinishTask(s, task) else s, run)
  }

  function QuitPaused(s: State, run: string): State
    requires run in s.runs
  {
    var task := s.runs[run].task;
    ExitRun(if Active(s, task, run) then PauseTask(s, task) else s, run)
  }

  // ctx.Err() != nil || isStopRequested
  predicate Interrupted(s: State, run: string)
    requires run in s.runs
  {
    var r := s.runs[run];
    r.cancelled || (r.task in s.tasks && s.tasks[r.task].stopRequested)
  }

  // ---- steps of a run ----

  function BeginStep(s: State, run: string): State
    requires run in s.runs
  {
    if s.runs[run].task !in s.tasks then ExitRun(s, run) else WithPc(s, run, Initialising)
  }

  function InitDoneStep(s: State, run: string): State
    requires run in s.runs
  {
    if Interrupted(s, run) then QuitFinished(s, run) else WithPc(s, run, Planning)
  }

  function PlanReturnedStep(s: State, run: string, plan: Plan): State
    requires run in s.runs
  {
    WithPc(s, run, AtHead(NormalizePlan(plan)))
  }

  function Min(a: nat, b: nat): nat {
    if a < b then a else b
  }

  // The next stage, with at most maxTrees of the planned subtasks.
  function EnterStage(s: State, run: string, planned: nat): State
    requires run in s.runs && s.runs[run].task in s.tasks
  {
    var task := s.runs[run].task;
    var k := s.tasks[task];
    WithPc(WithTask(s, task, OpenStage(k, run)), run, Forking(k.forest + 1, Min(planned, k.maxTrees), [], 0))
  }

  function HeadStep(s: State, run: string): State
    requires run in s.runs && s.runs[run].pc.AtHead?
  {
    var task := s.runs[run].task;
    var plan := s.runs[run].pc.plan;
    if Interrupted(s, run) then QuitFinished(s, run)
    else if PlanNeedsClarification(plan) then QuitPaused(s, run)
    else if plan.finished || plan.trees == 0 then QuitFinished(s, run)
    else if task !in s.tasks then ExitRun(s, run)
    else EnterStage(s, run, plan.trees)
  }

  function SpawnTree(s: State, run: string, tree: string): State
    requires run in s.runs && s.runs[run].pc.Forking?
    requires s.runs[run].pc.rest > 0
  {
    var pc := s.runs[run].pc;
    var s1 := AddTree(s, s.runs[run].task, Tree(tree, pc.stage, false, Running, run)).(ids := s.ids + {tree});
    WithPc(s1, run, pc.(rest := pc.rest - 1, workers := pc.workers + [Worker(tree, Waiting)]))
  }

  function ForkStep(s: State, run: string, tree: string): State
    requires run in s.runs && s.runs[run].pc.Forking?
    requires s.runs[run].pc.rest > 0
  {
    if Interrupted(s, run) then WithPc(s, run, s.runs[run].pc.(rest := 0))
    else SpawnTree(s, run, tree)
  }

  predicate AtWorker(s: State, run: string, w: nat, pc: WorkerPc) {
    run in s.runs && s.runs[run].pc.Forking? && w < |s.runs[run].pc.workers| &&
    s.runs[run].pc.workers[w].pc == pc
  }

  function MoveWorker(pc: Pc, w: nat, to: WorkerPc): (moved: Pc)
    requires pc.Forking? && w < |pc.workers|
    ensures moved.Forking?
  {
    pc.(workers := pc.workers[w := pc.workers[w].(pc := to)])
  }

  // The semaphore branch of the select.
  function AcquireStep(s: State, run: string, w: nat): State
    requires AtWorker(s, run, w, Waiting)
  {
    var pc := MoveWorker(s.runs[run].pc, w, Holding);
    WithPc(s, run, pc.(slots := pc.slots + 1))
  }

  // The ctx.Done branch of the select: finishTreeBeforeRun.
  function AbortStep(s: State, run: string, w: nat): State
    requires AtWorker(s, run, w, Waiting)
  {
    var r := s.runs[run];
    WithPc(UpdateTree(s, r.task, r.pc.workers[w].tree, Finished), run, MoveWorker(r.pc, w, Done))
  }

  // runTree up to the call of the CLI runner.
  function StartTreeStep(s: State, run: string, w: nat): State
    requires AtWorker(s, run, w, Holding)
  {
    var r := s.runs[run];
    var tree := r.pc.workers[w].tree;
    if r.task in s.tasks && HasTree(s.tasks[r.task].trees, tree) then
      var s1 := UpdateTree(s, r.task, tree, Running);
      var s2 := s1.(cancels := s1.cancels[TreeKey(r.task, tree) := TreeContext(run, tree)]);
      WithPc(s2, run, MoveWorker(r.pc, w, Executing))
    else WithPc(s, run, MoveWorker(r.pc, w, Returned))
  }

  // runTree from the return of the CLI runner.
  function TreeReturnedStep(s: State, run: string, w: nat): State
    requires AtWorker(s, run, w, Executing)
  {
    var r := s.runs[run];
    var tree := r.pc.workers[w].tree;
    var s1 := UpdateTree(s, r.task, tree, Finished);
    var s2 := s1.(cancels := s1.cancels - {TreeKey(r.task, tree)});
    WithPc(s2, run, MoveWorker(r.pc, w, Returned))
  }

  // The deferred receive from the semaphore, then wg.Done.
  function ReleaseStep(s: State, run: string, w: nat): State
    requires AtWorker(s, run, w, Returned)
  {
    var pc := MoveWorker(s.runs[run].pc, w, Done);
    WithPc(s, run, if pc.slots > 0 then pc.(slots := pc.slots - 1) else pc)
  }

  predicate AllDone(workers: seq<Worker>) {
    forall w :: 0 <= w < |workers| ==> workers[w].pc.Done?
  }

  predicate Joinable(s: State, run: string) {
    run in s.runs && s.runs[run].pc.Forking? && s.runs[run].pc.rest == 0 && AllDone(s.runs[run].pc.workers)
  }

  function Validate(s: State, run: string, tree: string): State
    requires run in s.runs && s.runs[run].pc.Forking?
  {
    var task := s.runs[run].task;
    var stage := s.runs[run].pc.stage;
    var s1 := AddTree(s, task, Tree(tree, stage, true, Running, run)).(ids := s.ids + {tree});
    var s2 := s1.(cancels := s1.cancels[TreeKey(task, tree) := TreeContext(run, tree)]);
    WithPc(s2, run, Validating(stage, tree))
  }

  // wg.Wait returns; then the check, and runValidationTree up to the runner.
  function JoinStep(s: State, run: string, tree: string): State
    requires run in s.runs && s.runs[run].pc.Forking?
  {
    if Interrupted(s, run) then QuitFinished(s, run)
    else if s.runs[run].task !in s.tasks then WithPc(s, run, Deciding(s.runs[run].pc.stage))
    else Validate(s, run, tree)
  }

  function ValidatedStep(s: State, run: string): State
    requires run in s.runs && s.runs[run].pc.Validating?
  {
    var r := s.runs[run];
    var s1 := UpdateTree(s, r.task, r.pc.tree, Finished);
    var s2 := s1.(cancels := s1.cancels - {TreeKey(r.task, r.pc.tree)});
    if Interrupted(s2, run) then QuitFinished(s2, run) else WithPc(s2, run, Deciding(r.pc.stage))
  }

  function DecidedStep(s: State, run: string, answer: Plan): State
    requires run in s.runs
  {
    var decision := NormalizePlan(answer);
    if Interrupted(s, run) then QuitFinished(s, run)
    else if decision.finished || decision.trees == 0 then
      if PlanNeedsClarification(decision) then QuitPaused(s, run) else QuitFinished(s, run)
    else WithPc(s, run, AtHead(decision))
  }

  // The recover branch of startForestRun; the deferred calls of runTree
  // unregister a validation subtask that was executing.
  function PanicStep(s: State, run: string): State
    requires run in s.runs
  {
    var r := s.runs[run];
    var s1 := if r.pc.Validating? then s.(cancels := s.cancels - {TreeKey(r.task, r.pc.tree)}) else s;
    QuitFinished(s1, run)
  }

  // ---- steps of users, the watchdog and the service itself ----

  function NewTask(maxTrees: nat): Task {
    Task(Running, Running, false, false, 0, maxTrees, [], [])
  }

  // CreateTask: either start a run at once or, for a vague prompt, ask first.
  function CreateStep(s: State, task: string, maxTrees: nat, vague: bool, run: string): State {
    var s1 := WithTask(s, task, NewTask(maxTrees)).(ids := s.ids + {task});
    if vague then PauseTask(s1, task) else StartRun(s1, task, run)
  }

  function SendStep(s: State, task: string, run: string): State
    requires task in s.tasks
  {
    StartRun(WithTask(s, task, MarkRunning(s.tasks[task])), task, run)
  }

  function StopMarkStep(s: State, task: string): State {
    if task in s.tasks then WithTask(s, task, MarkStopped(s.tasks[task])) else s
  }

  // Store.DeleteTask, up to the unlock ...
  function DeleteEntryStep(s: State, task: string): State
    requires task in s.tasks
  {
    s.(tasks := s.tasks - {task}, removing := s.removing[task := s.tasks[task]])
  }

  // ... and after it.
  function RemoveFilesStep(s: State, task: string): State {
    s.(removing := s.removing - {task})
  }

  function RunningTasks(s: State): set<string> {
    set t | t in s.tasks && s.tasks[t].status.Running?
  }

  // One visit of the watchdog loop to a task of its (perhaps outdated) list.
  function WatchdogVisitStep(s: State, task: string, run: string): State {
    var s1 := s.(snapshot := s.snapshot - {task});
    if HasProcesses(s, task) then s1 else StartRun(s1, task, run)
  }

  // A task to resume and the identifier of its new run.
  datatype Resumption = Resumption(task: string, run: string)

  function ResumeOne(s: State, r: Resumption): State {
    if r.task in s.tasks
    then StartRun(WithTask(s, r.task, s.tasks[r.task].(status := Running, gardenerStatus := Running)), r.task, r.run)
    else s
  }

  function ResumeAll(s: State, resumed: seq<Resumption>): State
    decreases |resumed|
  {
    if resumed == [] then s else ResumeAll(ResumeOne(s, resumed[0]), resumed[1..])
  }

  // The tasks whose files a new process finds.
  function Found(s: State): map<string, Task> {
    s.removing + s.tasks
  }

  // A new process after Load: no run has survived, and nobody goes on removing.
  function Reloaded(s: State, revived: set<string>): State {
    State(map t | t in Found(s) :: Recovered(Found(s)[t], t in revived), map[], map[], map[], map[], s.ids, {},
          s.maxConcurrent)
  }

  // Load, then ResumeUnfinished.
  function RestartStep(s: State, revived: set<string>, resumed: seq<Resumption>): State {
    ResumeAll(Reloaded(s, revived), resumed)
  }

  // ---- the step system ----

  datatype Step =
    | Create(task: string, maxTrees: nat, vague: bool, run: string)
    | Send(task: string, run: string)
    | Cancel(task: string)
    | StopMark(task: string)
    | DeleteEntry(task: string)
    | RemoveFiles(task: string)
    | WatchdogList
    | WatchdogSkip(task: string)
    | WatchdogVisit(task: string, run: string)
    | Restart(revived: set<string>, resumed: seq<Resumption>)
    | Begin(run: string)
    | InitDone(run: string)
    | PlanReturned(run: string, plan: Plan)
    | Head(run: string)
    | Fork(run: string, tree: string)
    | Acquire(run: string, worker: nat)
    | Abort(run: string, worker: nat)
    | StartTree(run: string, worker: nat)
    | TreeReturned(run: string, worker: nat)
    | Release(run: string, worker: nat)
    | Join(run: string, tree: string)
    | Validated(run: string)
    | Decided(run: string, plan: Plan)
    | Panic(run: string)

  predicate IsRunStep(step: Step) {
    step.Begin? || step.InitDone? || step.PlanReturned? || step.Head? || step.Fork? || step.Acquire? || step.Abort? ||
    step.StartTree? || step.TreeReturned? || step.Release? || step.Join? || step.Validated? || step.Decided? ||
    step.Panic?
  }

  // The subtasks a run still works on carry identifiers handed out before.
  ghost predicate PcKnown(ids: set<string>, pc: Pc) {
    && (pc.Validating? ==> pc.tree in ids)
    && (pc.Forking? ==> forall w :: 0 <= w < |pc.workers| ==> pc.workers[w].tree in ids)
  }

  // newID never repeats and never produces a colon.
  predicate Fresh(s: State, id: string) {
    id !in s.ids && ColonFree(id)
  }

  predicate Unfinished(k: Task) {
    k.status.Running? && !k.stopRequested
  }

  // ResumeUnfinished visits every running, unstopped task once.
  ghost predicate Resumes(s: State, resumed: seq<Resumption>) {
    && (forall i :: 0 <= i < |resumed| ==>
        && resumed[i].task in s.tasks && Unfinished(s.tasks[resumed[i].task])
        && Fresh(s, resumed[i].run))
    && (forall t :: t in s.tasks && Unfinished(s.tasks[t]) ==> exists i :: 0 <= i < |resumed| && resumed[i].task == t)
    && (forall i, j :: 0 <= i < j < |resumed| ==>
        resumed[i].task != resumed[j].task && resumed[i].run != resumed[j].run)
  }

  ghost predicate MayRevive(s: State, revived: set<string>) {
    forall t :: t in revived ==> t in Found(s) && Revivable(Found(s)[t])
  }

  ghost predicate Enabled(s: State, step: Step) {
    match step
    case Create(task, _, _, run) => Fresh(s, task) && Fresh(s, run) && task != run
    case Send(task, run) => task in s.tasks && Fresh(s, run)
    case Cancel(_) => true
    case StopMark(_) => true
    case DeleteEntry(task) => task in s.tasks
    case RemoveFiles(task) => task in s.removing
    case WatchdogList => true
    case WatchdogSkip(task) => task in s.snapshot
    case WatchdogVisit(task, run) => task in s.snapshot && Fresh(s, run)
    case Restart(revived, resumed) => MayRevive(s, revived) && Resumes(Reloaded(s, revived), resumed)
    case Begin(run) => run in s.runs && s.runs[run].pc.Starting?
    case InitDone(run) => run in s.runs && s.runs[run].pc.Initialising?
    case PlanReturned(run, _) => run in s.runs && s.runs[run].pc.Planning?
    case Head(run) => run in s.runs && s.runs[run].pc.AtHead?
    case Fork(run, tree) => run in s.runs && s.runs[run].pc.Forking? && s.runs[run].pc.rest > 0 && Fresh(s, tree)
    case Acquire(run, w) => AtWorker(s, run, w, Waiting) && s.runs[run].pc.slots < s.maxConcurrent
    case Abort(run, w) => AtWorker(s, run, w, Waiting) && s.runs[run].cancelled
    case StartTree(run, w) => AtWorker(s, run, w, Holding)
    case TreeReturned(run, w) => AtWorker(s, run, w, Executing)
    case Release(run, w) => AtWorker(s, run, w, Returned)
    case Join(run, tree) =>
      Joinable(s, run) && Fresh(s, tree)
    case Validated(run) => run in s.runs && s.runs[run].pc.Validating?
    case Decided(run, _) => run in s.runs && s.runs[run].pc.Deciding?
    case Panic(run) => run in s.runs && !s.runs[run].pc.Forking?
  }

  ghost function Apply(s: State, step: Step): State
    requires Enabled(s, step)
  {
    match step
    case Create(task, maxTrees, vague, run) => CreateStep(s, task, maxTrees, vague, run)
    case Send(task, run) => SendStep(s, task, run)
    case Cancel(task) => CancelTask(s, task)
    case StopMark(task) => StopMarkStep(s, task)
    case DeleteEntry(task) => DeleteEntryStep(s, task)
    case RemoveFiles(task) => RemoveFilesStep(s, task)
    case WatchdogList => s.(snapshot := RunningTasks(s))
    case WatchdogSkip(task) => s.(snapshot := s.snapshot - {task})
    case WatchdogVisit(task, run) => WatchdogVisitStep(s, task, run)
    case Restart(revived, resumed) => RestartStep(s, revived, resumed)
    case Begin(run) => BeginStep(s, run)
    case InitDone(run) => InitDoneStep(s, run)
    case PlanReturned(run, plan) => PlanReturnedStep(s, run, plan)
    case Head(run) => HeadStep(s, run)
    case Fork(run, tree) => ForkStep(s, run, tree)
    case Acquire(run, w) => AcquireStep(s, run, w)
    case Abort(run, w) => AbortStep(s, run, w)
    case StartTree(run, w) => StartTreeStep(s, run, w)
    case TreeReturned(run, w) => TreeReturnedStep(s, run, w)
    case Release(run, w) => ReleaseStep(s, run, w)
    case Join(run, tree) => JoinStep(s, run, tree)
    case Validated(run) => ValidatedStep(s, run)
    case Decided(run, plan) => DecidedStep(s, run, plan)
    case Panic(run) => PanicStep(s, run)
  }

  ghost predicate CanRun(s: State, steps: seq<Step>)
    decreases |steps|
  {
    steps == [] || (Enabled(s, steps[0]) && CanRun(Apply(s, steps[0]), steps[1..]))
  }

  ghost function After(s: State, steps: seq<Step>): State
    requires CanRun(s, steps)
    decreases |steps|
  {
    if steps == [] then s else After(Apply(s, steps[0]), steps[1..])
  }

  // A service started on an empty data directory.
  ghost predicate Init(s: State) {
    s == State(map[], map[], map[], map[], map[], {}, {}, s.maxConcurrent) && s.maxConcurrent > 0
  }

  ghost predicate Reachable(s: State) {
    exists s0, steps :: Init(s0) && CanRun(s0, steps) && After(s0, steps) == s
  }
}
