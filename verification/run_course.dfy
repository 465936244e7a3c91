/** The course of a run: what each of its steps does, said of the state before and
    after it.  The steps themselves are those of the protocol; here they are
    described by plans, flags, subtasks and workers. */
module RunCourse {
  import opened Text
  import opened ProcessKeys
  import opened Protocol
  import opened Ownership
  import opened Stages
  import opened LiveKeys
  import opened Flags
  import opened ForkJoin
  import opened Safety

  // ---- plans ----

  // A plan asks, or else it is over, or else it has work.
  predicate Asks(p: Plan) {
    p.needsClarification || (!Blank(p.question) && p.trees == 0)
  }

  predicate IsOver(p: Plan) {
    !Asks(p) && (p.finished || p.trees == 0)
  }

  predicate HasWork(p: Plan) {
    !Asks(p) && !p.finished && p.trees > 0
  }

  // Somebody has cancelled the run or stopped its task.
  predicate Halted(s: State, run: string)
    requires run in s.runs
  {
    var r := s.runs[run];
    r.cancelled || (r.task in s.tasks && s.tasks[r.task].stopRequested)
  }

  // ---- how a run ends ----

  // The run is gone with its key, and nothing else that belongs to runs has changed.
  predicate RunIsGone(s: State, run: string, s1: State)
    requires run in s.runs
  {
    && s1.runs == s.runs - {run}
    && s1.cancels == s.cancels - {RunKey(s.runs[run].task, run)}
    && s1.activeRuns == s.activeRuns && s1.removing == s.removing
  }

  predicate EndsWithout(s: State, run: string, s1: State)
    requires run in s.runs
  {
    RunIsGone(s, run, s1) && s1.tasks == s.tasks
  }

  // The task, if it is still there, is finished.
  predicate EndsFinished(s: State, run: string, s1: State)
    requires run in s.runs
  {
    var t := s.runs[run].task;
    && RunIsGone(s, run, s1)
    && s1.tasks == (
         if t in s.tasks
         then s.tasks[t := s.tasks[t].(status := Finished, gardenerStatus := Finished, awaitingUser := false)]
         else s.tasks)
  }

  // The task, if it is still there, is finished and awaits an answer.
  predicate EndsAsking(s: State, run: string, s1: State)
    requires run in s.runs
  {
    var t := s.runs[run].task;
    && RunIsGone(s, run, s1)
    && s1.tasks == (
         if t in s.tasks
         then s.tasks[t := s.tasks[t].(status := Finished, gardenerStatus := Finished, awaitingUser := true,
                                       stopRequested := false)]
         else s.tasks)
  }

  // A halted run finishes its task if it is still the active one.
  predicate EndsHalted(s: State, run: string, s1: State)
    requires run in s.runs
  {
    if s.runs[run].task in s.activeRuns && s.activeRuns[s.runs[run].task] == run then EndsFinished(s, run, s1)
    else EndsWithout(s, run, s1)
  }

  // The run goes on at `pc`, and nothing else has changed.
  predicate GoesOn(s: State, run: string, pc: Pc, s1: State)
    requires run in s.runs
  {
    s1 == s.(runs := s.runs[run := Run(s.runs[run].task, s.runs[run].cancelled, pc)])
  }

  lemma {:induction false} HaltedEnds(s: State, run: string)
    requires run in s.runs
    ensures EndsHalted(s, run, QuitFinished(s, run))
  {
  }

  lemma {:induction false} OwnerEnds(s: State, run: string)
    requires Owned(s) && run in s.runs && !Interrupted(s, run)
    ensures EndsFinished(s, run, QuitFinished(s, run)) && EndsAsking(s, run, QuitPaused(s, run))
  {
    UninterruptedIsActive(s, run);
  }

  // ---- the head of the loop, and the decision ----

  // A new stage, numbered on, with room for the planned subtasks as far as the task
  // allows them.
  predicate OpensPlanned(s: State, run: string, planned: nat, s1: State)
    requires run in s.runs && s.runs[run].task in s.tasks
  {
    var t := s.runs[run].task;
    var k := s.tasks[t];
    var room := if planned <= k.maxTrees then planned else k.maxTrees;
    s1 == s.(
      runs := s.runs[run := Run(t, s.runs[run].cancelled, Forking(k.forest + 1, room, [], 0))],
      tasks := s.tasks[t := Task(Running, Running, k.stopRequested, k.awaitingUser, k.forest + 1, k.maxTrees, k.trees,
                                 k.openedBy + [run])])
  }

  // What the head of the loop makes of plan `p`.
  predicate Decides(s: State, run: string, p: Plan, s1: State)
    requires run in s.runs
  {
    if Halted(s, run) then EndsHalted(s, run, s1)
    else if Asks(p) then EndsAsking(s, run, s1)
    else if IsOver(p) then EndsFinished(s, run, s1)
    else if s.runs[run].task !in s.tasks then EndsWithout(s, run, s1)
    else OpensPlanned(s, run, p.trees, s1)
  }

  lemma {:induction false} HeadStepDecides(s: State, run: string)
    requires Owned(s) && run in s.runs && s.runs[run].pc.AtHead?
    ensures Decides(s, run, s.runs[run].pc.plan, HeadStep(s, run))
  {
    HaltedEnds(s, run);
    if !Halted(s, run) {
      OwnerEnds(s, run);
    }
  }

  lemma {:induction false} HeadDecides(s: State, run: string)
    requires Reachable(s) && Enabled(s, Head(run))
    ensures Decides(s, run, s.runs[run].pc.plan, Apply(s, Head(run)))
  {
    ReachableIsSafe(s);
    HeadStepDecides(s, run);
  }

  // After a stage, the same for the answer; with work in it the run is back at the
  // head with just that answer.
  predicate DecidesOn(s: State, run: string, p: Plan, s1: State)
    requires run in s.runs
  {
    if Halted(s, run) then EndsHalted(s, run, s1)
    else if Asks(p) then EndsAsking(s, run, s1)
    else if IsOver(p) then EndsFinished(s, run, s1)
    else GoesOn(s, run, AtHead(p), s1)
  }

  lemma {:induction false} DecidedStepDecides(s: State, run: string, p: Plan)
    requires Owned(s) && run in s.runs
    ensures DecidesOn(s, run, p, DecidedStep(s, run, p))
  {
    HaltedEnds(s, run);
    NormalPlanIsConsistent(p);
    if !Halted(s, run) {
      OwnerEnds(s, run);
    }
  }

  lemma {:induction false} DecisionDecides(s: State, run: string, p: Plan)
    requires Reachable(s) && Enabled(s, Decided(run, p))
    ensures DecidesOn(s, run, p, Apply(s, Decided(run, p)))
  {
    ReachableIsSafe(s);
    DecidedStepDecides(s, run, p);
  }

  // ---- the steps before and after a stage ----

  // A run of a missing task ends at once.
  lemma {:induction false} RunBegins(s: State, run: string)
    requires Enabled(s, Begin(run))
    ensures var s1 := Apply(s, Begin(run));
      if s.runs[run].task in s.tasks then GoesOn(s, run, Initialising, s1) else EndsWithout(s, run, s1)
  {
  }

  lemma {:induction false} RunPlans(s: State, run: string)
    requires Enabled(s, InitDone(run))
    ensures var s1 := Apply(s, InitDone(run));
      if Halted(s, run) then EndsHalted(s, run, s1) else GoesOn(s, run, Planning, s1)
  {
    HaltedEnds(s, run);
  }

  // The plan arrives as it is, unless it asks: then it is without subtasks.
  lemma {:induction false} PlanArrives(s: State, run: string, p: Plan)
    requires Enabled(s, PlanReturned(run, p))
    ensures run in Apply(s, PlanReturned(run, p)).runs && Apply(s, PlanReturned(run, p)).runs[run].pc.AtHead?
    ensures var s1 := Apply(s, PlanReturned(run, p));
      var q := s1.runs[run].pc.plan;
      && GoesOn(s, run, AtHead(q), s1)
      && (Asks(q) <==> Asks(p)) && (IsOver(q) <==> IsOver(p)) && (HasWork(q) <==> HasWork(p))
      && (!p.needsClarification ==> q == p)
  {
    NormalPlanIsConsistent(p);
  }

  // One more subtask for the task, if it is still there.
  function WithTree(s: State, task: string, tree: Tree): map<string, Task> {
    if task in s.tasks then s.tasks[task := s.tasks[task].(trees := s.tasks[task].trees + [tree])] else s.tasks
  }

  // After the join a validation subtask is added, registered and started.
  lemma {:induction false} JoinValidates(s: State, run: string, tree: string)
    requires Enabled(s, Join(run, tree))
    ensures var s1, t, stage := Apply(s, Join(run, tree)), s.runs[run].task, s.runs[run].pc.stage;
      if Halted(s, run) then EndsHalted(s, run, s1)
      else if t !in s.tasks then GoesOn(s, run, Deciding(stage), s1)
      else
        GoesOn(s.(tasks := WithTree(s, t, Tree(tree, stage, true, Running, run)),
                  cancels := s.cancels[TreeKey(t, tree) := TreeContext(run, tree)], ids := s.ids + {tree}),
               run, Validating(stage, tree), s1)
  {
    HaltedEnds(s, run);
  }

  // The subtask with this identifier has this status, and nothing else has changed.
  predicate OnlyStatus(before: map<string, Task>, task: string, tree: string, status: Status,
                       after: map<string, Task>) {
    && after.Keys == before.Keys
    && (forall other :: other in before && other != task ==> after[other] == before[other])
    && (task in before ==> StatusSet(before[task], tree, status, after[task]))
  }

  predicate StatusSet(k: Task, tree: string, status: Status, k1: Task) {
    && k1.(trees := k.trees) == k && |k1.trees| == |k.trees|
    && forall i :: 0 <= i < |k.trees| ==>
         k1.trees[i] == if k.trees[i].id == tree then k.trees[i].(status := status) else k.trees[i]
  }

  lemma {:induction false} UpdateIsOnlyStatus(s: State, task: string, tree: string, status: Status)
    requires Staged(s)
    ensures OnlyStatus(s.tasks, task, tree, status, UpdateTree(s, task, tree, status).tasks)
  {
    if task in s.tasks {
      assert TaskShape(s.tasks[task]);
      SetStatusPointwise(s.tasks[task].trees, tree, status);
    }
  }

  // The validation subtask is finished and unregistered, and the run decides.
  lemma {:induction false} ValidationEnds(s: State, run: string, tasks: map<string, Task>)
    requires Staged(s) && Enabled(s, Validated(run))
    requires tasks == UpdateTree(s, s.runs[run].task, s.runs[run].pc.tree, Finished).tasks
    ensures OnlyStatus(s.tasks, s.runs[run].task, s.runs[run].pc.tree, Finished, tasks)
    ensures var s1, t, tree := Apply(s, Validated(run)), s.runs[run].task, s.runs[run].pc.tree;
      var s0 := s.(tasks := tasks, cancels := s.cancels - {TreeKey(t, tree)});
      if Halted(s, run) then EndsHalted(s0, run, s1) else GoesOn(s0, run, Deciding(s.runs[run].pc.stage), s1)
  {
    var t, tree := s.runs[run].task, s.runs[run].pc.tree;
    UpdateIsOnlyStatus(s, t, tree, Finished);
    HaltedEnds(s.(tasks := tasks, cancels := s.cancels - {TreeKey(t, tree)}), run);
  }

  // ---- the fan-out and its workers ----

  // A turn of the loop adds one subtask and one worker for it; a halted run plans no
  // more.
  lemma {:induction false} ForkAdds(s: State, run: string, tree: string)
    requires Enabled(s, Fork(run, tree))
    ensures var s1, t, pc := Apply(s, Fork(run, tree)), s.runs[run].task, s.runs[run].pc;
      if Halted(s, run) then GoesOn(s, run, Forking(pc.stage, 0, pc.workers, pc.slots), s1)
      else
        GoesOn(s.(tasks := WithTree(s, t, Tree(tree, pc.stage, false, Running, run)), ids := s.ids + {tree}), run,
               Forking(pc.stage, pc.rest - 1, pc.workers + [Worker(tree, Waiting)], pc.slots), s1)
  {
  }

  // The run with one worker at another place and another number of slots.
  function WorkerAt(pc: Pc, w: nat, at: WorkerPc, slots: nat): Pc
    requires pc.Forking? && w < |pc.workers|
  {
    Forking(pc.stage, pc.rest, pc.workers[w := Worker(pc.workers[w].tree, at)], slots)
  }

  // A waiting worker takes a slot as soon as there is one.
  lemma {:induction false} WaitingAcquires(s: State, run: string, w: nat)
    requires run in s.runs && s.runs[run].pc.Forking? && w < |s.runs[run].pc.workers|
    requires s.runs[run].pc.workers[w].pc == Waiting
    ensures Enabled(s, Acquire(run, w)) <==> s.runs[run].pc.slots < s.maxConcurrent
    ensures Enabled(s, Acquire(run, w)) ==>
      GoesOn(s, run, WorkerAt(s.runs[run].pc, w, Holding, s.runs[run].pc.slots + 1), Apply(s, Acquire(run, w)))
  {
  }

  // It gives up when its run has been cancelled, and then its subtask is finished.
  predicate GivesUp(s: State, run: string, w: nat, s1: State)
    requires run in s.runs && s.runs[run].pc.Forking? && w < |s.runs[run].pc.workers|
  {
    var t, pc := s.runs[run].task, s.runs[run].pc;
    && OnlyStatus(s.tasks, t, pc.workers[w].tree, Finished, s1.tasks)
    && GoesOn(s.(tasks := s1.tasks), run, WorkerAt(pc, w, Done, pc.slots), s1)
  }

  lemma {:induction false} AbortStepGivesUp(s: State, run: string, w: nat)
    requires Staged(s) && AtWorker(s, run, w, Waiting)
    ensures GivesUp(s, run, w, AbortStep(s, run, w))
  {
    UpdateIsOnlyStatus(s, s.runs[run].task, s.runs[run].pc.workers[w].tree, Finished);
  }

  lemma {:induction false} WaitingGivesUp(s: State, run: string, w: nat)
    requires Staged(s) && run in s.runs && s.runs[run].pc.Forking? && w < |s.runs[run].pc.workers|
    requires s.runs[run].pc.workers[w].pc == Waiting
    ensures Enabled(s, Abort(run, w)) <==> s.runs[run].cancelled
    ensures Enabled(s, Abort(run, w)) ==> GivesUp(s, run, w, Apply(s, Abort(run, w)))
  {
    AbortStepGivesUp(s, run, w);
  }

  // A worker with a slot registers its subtask, sets it running and executes it,
  // unless task or subtask is gone.
  predicate Starts(s: State, run: string, w: nat, s1: State)
    requires run in s.runs && s.runs[run].pc.Forking? && w < |s.runs[run].pc.workers|
  {
    var t, pc := s.runs[run].task, s.runs[run].pc;
    var tree := pc.workers[w].tree;
    if t in s.tasks && exists i :: 0 <= i < |s.tasks[t].trees| && s.tasks[t].trees[i].id == tree then
      && OnlyStatus(s.tasks, t, tree, Running, s1.tasks)
      && GoesOn(s.(tasks := s1.tasks, cancels := s.cancels[TreeKey(t, tree) := TreeContext(run, tree)]), run,
                WorkerAt(pc, w, Executing, pc.slots), s1)
    else GoesOn(s, run, WorkerAt(pc, w, Returned, pc.slots), s1)
  }

  lemma {:induction false} StartStepExecutes(s: State, run: string, w: nat, s1: State)
    requires Staged(s) && AtWorker(s, run, w, Holding) && s1 == StartTreeStep(s, run, w)
    requires var r := s.runs[run]; r.task in s.tasks && HasTree(s.tasks[r.task].trees, r.pc.workers[w].tree)
    ensures var t, pc := s.runs[run].task, s.runs[run].pc;
      var tree := pc.workers[w].tree;
      && s1.tasks == UpdateTree(s, t, tree, Running).tasks
      && GoesOn(s.(tasks := s1.tasks, cancels := s.cancels[TreeKey(t, tree) := TreeContext(run, tree)]), run,
                WorkerAt(pc, w, Executing, pc.slots), s1)
  {
  }

  lemma {:induction false} StartStepStarts(s: State, run: string, w: nat)
    requires Staged(s) && AtWorker(s, run, w, Holding)
    ensures Starts(s, run, w, StartTreeStep(s, run, w))
  {
    var t, tree := s.runs[run].task, s.runs[run].pc.workers[w].tree;
    if t in s.tasks && HasTree(s.tasks[t].trees, tree) {
      StartStepExecutes(s, run, w, StartTreeStep(s, run, w));
      UpdateIsOnlyStatus(s, t, tree, Running);
    }
  }

  lemma {:induction false} HoldingStarts(s: State, run: string, w: nat)
    requires Staged(s) && Enabled(s, StartTree(run, w))
    ensures Starts(s, run, w, Apply(s, StartTree(run, w)))
  {
    StartStepStarts(s, run, w);
  }

  // When the agent returns, the subtask is finished and unregistered.
  predicate Returns(s: State, run: string, w: nat, s1: State)
    requires run in s.runs && s.runs[run].pc.Forking? && w < |s.runs[run].pc.workers|
  {
    var t, pc := s.runs[run].task, s.runs[run].pc;
    var tree := pc.workers[w].tree;
    && OnlyStatus(s.tasks, t, tree, Finished, s1.tasks)
    && GoesOn(s.(tasks := s1.tasks, cancels := s.cancels - {TreeKey(t, tree)}), run,
              WorkerAt(pc, w, Returned, pc.slots), s1)
  }

  lemma {:induction false} ReturnStepReturns(s: State, run: string, w: nat)
    requires Staged(s) && AtWorker(s, run, w, Executing)
    ensures Returns(s, run, w, TreeReturnedStep(s, run, w))
  {
    UpdateIsOnlyStatus(s, s.runs[run].task, s.runs[run].pc.workers[w].tree, Finished);
  }

  lemma {:induction false} ExecutingReturns(s: State, run: string, w: nat)
    requires Staged(s) && Enabled(s, TreeReturned(run, w))
    ensures Returns(s, run, w, Apply(s, TreeReturned(run, w)))
  {
    ReturnStepReturns(s, run, w);
  }

  // At last the slot is given back.
  lemma {:induction false} ReturnedReleases(s: State, run: string, w: nat)
    requires Reachable(s) && Enabled(s, Release(run, w))
    ensures s.runs[run].pc.slots > 0
    ensures GoesOn(s, run, WorkerAt(s.runs[run].pc, w, Done, s.runs[run].pc.slots - 1), Apply(s, Release(run, w)))
  {
    MoveCounts(s.runs[run].pc.workers, w, Done);
    SlotsAreBounded(s, run);
  }

  // ---- a stage is filled ----

  // No step of the run finds it halted.
  ghost predicate NeverHalted(s: State, steps: seq<Step>, run: string)
    requires CanRun(s, steps)
    decreases |steps|
  {
    && (run in s.runs ==> !Halted(s, run))
    && (steps != [] ==> NeverHalted(Apply(s, steps[0]), steps[1..], run))
  }

  // The subtasks that a stage has and will have.
  function Extent(pc: Pc): nat
    requires pc.Forking?
  {
    |pc.workers| + pc.rest
  }

  // A run over one step of its stage, or of anyone else.
  predicate KeepsExtent(r: Run, r1: Run) {
    && r.pc.Forking? && r1.pc.Forking?
    && Extent(r1.pc) == Extent(r.pc) && r1.pc.stage == r.pc.stage && r1.task == r.task
  }

  lemma {:induction false} SlotKeepsExtent(s: State, run: string, w: nat)
    ensures AtWorker(s, run, w, Waiting) ==> KeepsExtent(s.runs[run], AcquireStep(s, run, w).runs[run])
    ensures AtWorker(s, run, w, Waiting) ==> KeepsExtent(s.runs[run], AbortStep(s, run, w).runs[run])
    ensures AtWorker(s, run, w, Returned) ==> KeepsExtent(s.runs[run], ReleaseStep(s, run, w).runs[run])
  {
  }

  lemma {:induction false} TreeKeepsExtent(s: State, run: string, w: nat)
    ensures AtWorker(s, run, w, Holding) ==> KeepsExtent(s.runs[run], StartTreeStep(s, run, w).runs[run])
    ensures AtWorker(s, run, w, Executing) ==> KeepsExtent(s.runs[run], TreeReturnedStep(s, run, w).runs[run])
  {
  }

  lemma {:induction false} WorkerKeepsExtent(s: State, step: Step, run: string)
    requires Enabled(s, step) && run in s.runs && s.runs[run].pc.Forking?
    requires step.Acquire? || step.Abort? || step.StartTree? || step.TreeReturned? || step.Release?
    requires step.run == run
    ensures run in Apply(s, step).runs && KeepsExtent(s.runs[run], Apply(s, step).runs[run])
  {
    SlotKeepsExtent(s, run, step.worker);
    TreeKeepsExtent(s, run, step.worker);
  }

  lemma {:induction false} ForkKeepsExtent(s: State, run: string, tree: string)
    requires run in s.runs && s.runs[run].pc.Forking? && s.runs[run].pc.rest > 0 && !Halted(s, run)
    ensures KeepsExtent(s.runs[run], ForkStep(s, run, tree).runs[run])
  {
  }

  ghost predicate TasksOfRunsStay(s: State, s1: State) {
    forall r :: r in s.runs && r in s1.runs ==> s1.runs[r].task == s.runs[r].task
  }

  lemma {:induction false} StartKeepsTasksOfRuns(s: State, s1: State, task: string, run: string)
    requires s1.runs == s.runs && run !in s.runs
    ensures TasksOfRunsStay(s, StartRun(s1, task, run))
  {
  }

  lemma {:induction false} UserKeepsTasksOfRuns(s: State, step: Step)
    requires Enabled(s, step) && !IsRunStep(step) && !step.Restart? && s.runs.Keys <= s.ids
    ensures TasksOfRunsStay(s, Apply(s, step))
  {
    if step.Create? {
      var s1 := WithTask(s, step.task, NewTask(step.maxTrees)).(ids := s.ids + {step.task});
      StartKeepsTasksOfRuns(s, s1, step.task, step.run);
    } else if step.Send? {
      StartKeepsTasksOfRuns(s, WithTask(s, step.task, MarkRunning(s.tasks[step.task])), step.task, step.run);
    } else if step.WatchdogVisit? {
      StartKeepsTasksOfRuns(s, s.(snapshot := s.snapshot - {step.task}), step.task, step.run);
    }
  }

  lemma {:induction false} RunKeepsTask(s: State, step: Step)
    requires Inv(s) && Enabled(s, step) && !step.Restart?
    ensures TasksOfRunsStay(s, Apply(s, step))
  {
    if IsRunStep(step) {
      RunStepEffect(s, step);
    } else {
      UserKeepsTasksOfRuns(s, step);
    }
  }

  lemma {:induction false} OthersKeepExtent(s: State, step: Step, run: string)
    requires Inv(s) && Enabled(s, step) && !step.Restart? && !StageStep(step, run)
    requires run in s.runs && s.runs[run].pc.Forking? && run in Apply(s, step).runs
    ensures KeepsExtent(s.runs[run], Apply(s, step).runs[run])
  {
    RunKeepsTask(s, step);
    StageWorkFalls(s, step, run);
  }

  lemma {:induction false} OwnStepKeepsExtent(s: State, step: Step, run: string)
    requires Enabled(s, step) && StageStep(step, run) && run in s.runs && s.runs[run].pc.Forking? && !Halted(s, run)
    requires run in Apply(s, step).runs && Apply(s, step).runs[run].pc.Forking?
    ensures KeepsExtent(s.runs[run], Apply(s, step).runs[run])
  {
    if step.Fork? {
      ForkKeepsExtent(s, run, step.tree);
    } else if !step.Join? {
      WorkerKeepsExtent(s, step, run);
    } else {
      HaltedEnds(s, run);
    }
  }

  lemma {:induction false} StepKeepsExtent(s: State, step: Step, run: string)
    requires Inv(s) && Enabled(s, step) && !step.Restart?
    requires run in s.runs && s.runs[run].pc.Forking? && !Halted(s, run)
    requires run in Apply(s, step).runs && Apply(s, step).runs[run].pc.Forking?
    ensures KeepsExtent(s.runs[run], Apply(s, step).runs[run])
  {
    if StageStep(step, run) {
      OwnStepKeepsExtent(s, step, run);
    } else {
      OthersKeepExtent(s, step, run);
    }
  }

  lemma {:induction false} StepsKeepExtent(s: State, steps: seq<Step>, run: string)
    requires Inv(s) && CanRun(s, steps) && StaysInStage(s, steps, run) && NeverHalted(s, steps, run)
    ensures Inv(After(s, steps)) && run in After(s, steps).runs
    ensures KeepsExtent(s.runs[run], After(s, steps).runs[run])
    decreases |steps|
  {
    if steps != [] {
      StepKeepsInv(s, steps[0]);
      StepKeepsExtent(s, steps[0], run);
      StepsKeepExtent(Apply(s, steps[0]), steps[1..], run);
    }
  }

  lemma {:induction false} JoinableIsFull(s: State, run: string)
    requires Inv(s) && Joinable(s, run) && s.runs[run].task in s.tasks
    ensures Ordinary(s.tasks[s.runs[run].task].trees, s.runs[run].pc.stage) == Extent(s.runs[run].pc)
  {
    assert RunShaped(s, run);
  }

  // As many ordinary subtasks in a stage as were planned, or as the task allows, and
  // all of them finished.
  ghost predicate IsFilled(trees: seq<Tree>, stage: nat, planned: nat, maxTrees: nat) {
    && Ordinary(trees, stage) == (if planned <= maxTrees then planned else maxTrees)
    && StageFinished(trees, stage)
  }

  lemma {:induction false} JoinedIsFilled(s: State, run: string, planned: nat, maxTrees: nat)
    requires Inv(s) && Joinable(s, run) && s.runs[run].task in s.tasks
    requires Extent(s.runs[run].pc) == if planned <= maxTrees then planned else maxTrees
    ensures IsFilled(s.tasks[s.runs[run].task].trees, s.runs[run].pc.stage, planned, maxTrees)
  {
    JoinableIsFull(s, run);
    JoinedStageIsFinished(s, run);
  }

  lemma {:induction false} OpenedIsFilled(s1: State, run: string, steps: seq<Step>, s2: State, planned: nat,
        maxTrees: nat)
    requires Inv(s1) && CanRun(s1, steps) && StaysInStage(s1, steps, run) && NeverHalted(s1, steps, run)
    requires Extent(s1.runs[run].pc) == if planned <= maxTrees then planned else maxTrees
    requires s2 == After(s1, steps) && Joinable(s2, run) && s1.runs[run].task in s2.tasks
    ensures IsFilled(s2.tasks[s1.runs[run].task].trees, s1.runs[run].pc.stage, planned, maxTrees)
  {
    StepsKeepExtent(s1, steps, run);
    JoinedIsFilled(s2, run, planned, maxTrees);
  }

  lemma {:induction false} OpenedExtent(s: State, run: string, planned: nat, s1: State)
    requires run in s.runs && s.runs[run].task in s.tasks && OpensPlanned(s, run, planned, s1)
    ensures run in s1.runs && s1.runs[run].pc.Forking? && s1.runs[run].task == s.runs[run].task
    ensures s1.runs[run].pc.stage == s.tasks[s.runs[run].task].forest + 1
    ensures var maxTrees := s.tasks[s.runs[run].task].maxTrees;
      Extent(s1.runs[run].pc) == if planned <= maxTrees then planned else maxTrees
  {
  }

  lemma {:induction false} HeadKeepsInv(s: State, run: string)
    requires Reachable(s) && Enabled(s, Head(run))
    ensures Inv(Apply(s, Head(run)))
  {
    ReachableIsSafe(s);
    StepKeepsInv(s, Head(run));
  }

  // A plan with work, of a run that nobody halts, is carried out: when the stage it
  // opens can be joined, the stage is filled.
  lemma {:induction false} StageIsFilled(s: State, run: string, s1: State, steps: seq<Step>, s2: State)
    requires Reachable(s) && Enabled(s, Head(run)) && !Halted(s, run)
    requires HasWork(s.runs[run].pc.plan) && s.runs[run].task in s.tasks
    requires s1 == Apply(s, Head(run))
    requires CanRun(s1, steps) && StaysInStage(s1, steps, run) && NeverHalted(s1, steps, run)
    requires s2 == After(s1, steps) && Joinable(s2, run) && s.runs[run].task in s2.tasks
    ensures var t := s.runs[run].task;
      IsFilled(s2.tasks[t].trees, s.tasks[t].forest + 1, s.runs[run].pc.plan.trees, s.tasks[t].maxTrees)
  {
    HeadDecides(s, run);
    OpenedExtent(s, run, s.runs[run].pc.plan.trees, s1);
    HeadKeepsInv(s, run);
    OpenedIsFilled(s1, run, steps, s2, s.runs[run].pc.plan.trees, s.tasks[s.runs[run].task].maxTrees);
  }
}
