/** The process keys tell the truth: a task has a registered key exactly when
    one of its runs is alive. */
module LiveKeys {
  import opened ProcessKeys
  import opened Protocol
  import opened Ownership

  ghost predicate Executes(pc: Pc, tree: string) {
    || (pc.Validating? && pc.tree == tree)
    || (pc.Forking? && exists w :: 0 <= w < |pc.workers| && pc.workers[w] == Worker(tree, Executing))
  }

  ghost predicate TreeKeyHonest(s: State, key: string)
    requires key in s.cancels && s.cancels[key].TreeContext?
  {
    var h := s.cancels[key];
    h.run in s.runs && key == TreeKey(s.runs[h.run].task, h.tree) && Executes(s.runs[h.run].pc, h.tree)
  }

  ghost predicate TreeKeysHonest(s: State) {
    forall key :: key in s.cancels && s.cancels[key].TreeContext? ==> TreeKeyHonest(s, key)
  }

  // The run has no key of a subtask left.
  ghost predicate NoTreeKeys(s: State, run: string) {
    forall key :: key in s.cancels && s.cancels[key].TreeContext? ==> s.cancels[key].run != run
  }

  ghost predicate HasLiveRun(s: State, task: string) {
    exists r :: r in s.runs && s.runs[r].task == task
  }

  // hasTaskProcesses is exact.
  lemma {:induction false} ProcessesIffLiveRun(s: State, task: string)
    requires Owned(s) && TreeKeysHonest(s) && ColonFree(task)
    ensures HasProcesses(s, task) <==> HasLiveRun(s, task)
  {
    if HasLiveRun(s, task) {
      var r :| r in s.runs && s.runs[r].task == task;
      CoversOnlyOwnKeys(task, task, "gardener:" + r);
      assert RunKey(task, r) in s.cancels && Covers(task, RunKey(task, r));
    }
    if HasProcesses(s, task) {
      var key :| key in s.cancels && Covers(task, key);
      var h := s.cancels[key];
      if h.RunContext? {
        CoversOnlyOwnKeys(task, s.runs[h.run].task, "gardener:" + h.run);
      } else {
        assert TreeKeyHonest(s, key);
        CoversOnlyOwnKeys(task, s.runs[h.run].task, h.tree);
      }
      assert h.run in s.runs && s.runs[h.run].task == task;
    }
  }

  // Hence a visit of the watchdog starts a run only for a task that is no longer
  // running: while a task is running its owner keeps a key registered.
  lemma {:induction false} WatchdogStartsOnlyOutdatedTasks(s: State, task: string, run: string)
    requires Owned(s) && TreeKeysHonest(s) && Enabled(s, WatchdogVisit(task, run))
    requires run in WatchdogVisitStep(s, task, run).runs
    ensures task !in s.tasks || s.tasks[task].status.Finished?
    ensures !HasLiveRun(s, task)
  {
    ProcessesIffLiveRun(s, task);
    if task in s.tasks {
      RunningTaskHasLiveRun(s, task);
    }
  }

  lemma {:induction false} RunningTaskHasLiveRun(s: State, task: string)
    requires Owned(s) && task in s.tasks
    ensures s.tasks[task].status.Running? ==> HasLiveRun(s, task)
  {
    if s.tasks[task].status.Running? {
      assert HasOwner(s, task);
      assert s.activeRuns[task] in s.runs;
    }
  }

  // ---- preservation ----

  lemma {:induction false} TasksDoNotMatter(s: State, s1: State)
    requires TreeKeysHonest(s) && s1.cancels == s.cancels && s1.runs == s.runs
    ensures TreeKeysHonest(s1)
  {
    assert forall key :: key in s.cancels && s.cancels[key].TreeContext? ==>
      TreeKeyHonest(s, key) ==> TreeKeyHonest(s1, key);
  }

  lemma {:induction false} PcKeepsTreeKeys(s: State, run: string, pc: Pc)
    requires TreeKeysHonest(s) && run in s.runs
    requires forall key :: key in s.cancels && s.cancels[key].TreeContext? && s.cancels[key].run == run ==>
      Executes(pc, s.cancels[key].tree)
    ensures TreeKeysHonest(WithPc(s, run, pc))
  {
    var s1 := WithPc(s, run, pc);
    assert forall key :: key in s.cancels && s.cancels[key].TreeContext? ==>
      TreeKeyHonest(s, key) ==> TreeKeyHonest(s1, key);
  }

  lemma {:induction false} ExitKeepsTreeKeys(s: State, run: string)
    requires TreeKeysHonest(s) && run in s.runs && NoTreeKeys(s, run)
    ensures TreeKeysHonest(ExitRun(s, run))
  {
    var s1 := ExitRun(s, run);
    assert forall key :: key in s1.cancels && s.cancels[key].TreeContext? ==>
      TreeKeyHonest(s, key) ==> TreeKeyHonest(s1, key);
  }

  lemma {:induction false} QuitKeepsTreeKeys(s: State, run: string)
    requires TreeKeysHonest(s) && run in s.runs && NoTreeKeys(s, run)
    ensures TreeKeysHonest(QuitFinished(s, run)) && TreeKeysHonest(QuitPaused(s, run))
  {
    var task := s.runs[run].task;
    TasksDoNotMatter(s, FinishTask(s, task));
    TasksDoNotMatter(s, PauseTask(s, task));
    ExitKeepsTreeKeys(s, run);
    ExitKeepsTreeKeys(FinishTask(s, task), run);
    ExitKeepsTreeKeys(PauseTask(s, task), run);
  }

  lemma {:induction false} IdleRunHasNoTreeKeys(s: State, run: string)
    requires TreeKeysHonest(s) && run in s.runs
    requires forall tree :: !Executes(s.runs[run].pc, tree)
    ensures NoTreeKeys(s, run)
  {
    assert forall key :: key in s.cancels && s.cancels[key].TreeContext? ==> TreeKeyHonest(s, key);
  }

  lemma {:induction false} StartKeepsTreeKeys(s: State, task: string, run: string)
    requires TreeKeysHonest(s) && run !in s.runs
    ensures TreeKeysHonest(StartRun(s, task, run))
  {
    var s1 := StartRun(s, task, run);
    forall key | key in s1.cancels && s1.cancels[key].TreeContext?
      ensures TreeKeyHonest(s1, key)
    {
      assert TreeKeyHonest(s, key);
    }
  }

  lemma {:induction false} CancelKeepsTreeKeys(s: State, task: string)
    requires TreeKeysHonest(s)
    ensures TreeKeysHonest(CancelTask(s, task))
  {
    var s1 := CancelTask(s, task);
    assert forall key :: key in s.cancels && s.cancels[key].TreeContext? ==>
      TreeKeyHonest(s, key) ==> TreeKeyHonest(s1, key);
  }

  // Moving a worker that is not executing, to a point where it is not either.
  lemma {:induction false} IdleMoveKeepsTreeKeys(s: State, run: string, w: nat, pc: Pc)
    requires TreeKeysHonest(s) && run in s.runs && s.runs[run].pc.Forking? && w < |s.runs[run].pc.workers|
    requires !s.runs[run].pc.workers[w].pc.Executing?
    requires pc.Forking? && |pc.workers| >= |s.runs[run].pc.workers|
    requires forall v :: 0 <= v < |s.runs[run].pc.workers| && v != w ==> pc.workers[v] == s.runs[run].pc.workers[v]
    ensures TreeKeysHonest(WithPc(s, run, pc))
  {
    var pc0 := s.runs[run].pc;
    forall key | key in s.cancels && s.cancels[key].TreeContext? && s.cancels[key].run == run
      ensures Executes(pc, s.cancels[key].tree)
    {
      assert TreeKeyHonest(s, key);
      var v :| 0 <= v < |pc0.workers| && pc0.workers[v] == Worker(s.cancels[key].tree, Executing);
      assert pc.workers[v] == pc0.workers[v];
    }
    PcKeepsTreeKeys(s, run, pc);
  }

  lemma {:induction false} RegisterKeepsTreeKeys(s: State, run: string, tree: string, pc: Pc)
    requires TreeKeysHonest(s) && run in s.runs && Executes(pc, tree)
    requires forall t :: Executes(s.runs[run].pc, t) ==> Executes(pc, t)
    ensures var key := TreeKey(s.runs[run].task, tree);
      TreeKeysHonest(WithPc(s.(cancels := s.cancels[key := TreeContext(run, tree)]), run, pc))
  {
    var s1 := s.(cancels := s.cancels[TreeKey(s.runs[run].task, tree) := TreeContext(run, tree)]);
    var s2 := WithPc(s1, run, pc);
    forall key | key in s2.cancels && s2.cancels[key].TreeContext?
      ensures TreeKeyHonest(s2, key)
    {
      if key != TreeKey(s.runs[run].task, tree) {
        assert TreeKeyHonest(s, key);
      }
    }
  }

  lemma {:induction false} UnregisterKeepsTreeKeys(s: State, run: string, tree: string, pc: Pc)
    requires TreeKeysHonest(s) && run in s.runs
    requires forall t :: t != tree && Executes(s.runs[run].pc, t) ==> Executes(pc, t)
    ensures TreeKeysHonest(WithPc(s.(cancels := s.cancels - {TreeKey(s.runs[run].task, tree)}), run, pc))
  {
    var s1 := s.(cancels := s.cancels - {TreeKey(s.runs[run].task, tree)});
    var s2 := WithPc(s1, run, pc);
    forall key | key in s2.cancels && s2.cancels[key].TreeContext?
      ensures TreeKeyHonest(s2, key)
    {
      assert TreeKeyHonest(s, key);
    }
  }

  lemma {:induction false} MoveExecutes(pc: Pc, w: nat, to: WorkerPc, t: string)
    requires pc.Forking? && w < |pc.workers| && Executes(pc, t)
    requires pc.workers[w].tree != t || !pc.workers[w].pc.Executing? || to.Executing?
    ensures Executes(MoveWorker(pc, w, to), t)
  {
    var v :| 0 <= v < |pc.workers| && pc.workers[v] == Worker(t, Executing);
    assert MoveWorker(pc, w, to).workers[v] == Worker(t, Executing);
  }

  lemma {:induction false} StartTreeKeepsTreeKeys(s: State, run: string, w: nat)
    requires TreeKeysHonest(s) && AtWorker(s, run, w, Holding)
    ensures TreeKeysHonest(StartTreeStep(s, run, w))
  {
    var r := s.runs[run];
    var tree := r.pc.workers[w].tree;
    if r.task in s.tasks && HasTree(s.tasks[r.task].trees, tree) {
      var s1 := UpdateTree(s, r.task, tree, Running);
      TasksDoNotMatter(s, s1);
      var pc := MoveWorker(r.pc, w, Executing);
      assert pc.workers[w] == Worker(tree, Executing);
      forall t | Executes(r.pc, t) ensures Executes(pc, t) {
        MoveExecutes(r.pc, w, Executing, t);
      }
      RegisterKeepsTreeKeys(s1, run, tree, pc);
    } else {
      IdleMoveKeepsTreeKeys(s, run, w, MoveWorker(r.pc, w, Returned));
    }
  }

  lemma {:induction false} TreeReturnedKeepsTreeKeys(s: State, run: string, w: nat)
    requires TreeKeysHonest(s) && AtWorker(s, run, w, Executing)
    ensures TreeKeysHonest(TreeReturnedStep(s, run, w))
  {
    var r := s.runs[run];
    var tree := r.pc.workers[w].tree;
    var s1 := UpdateTree(s, r.task, tree, Finished);
    TasksDoNotMatter(s, s1);
    var pc := MoveWorker(r.pc, w, Returned);
    forall t | t != tree && Executes(r.pc, t) ensures Executes(pc, t) {
      MoveExecutes(r.pc, w, Returned, t);
    }
    UnregisterKeepsTreeKeys(s1, run, tree, pc);
  }

  lemma {:induction false} SlotsKeepTreeKeys(s: State, run: string, w: nat)
    requires TreeKeysHonest(s)
    ensures AtWorker(s, run, w, Waiting) ==>
      TreeKeysHonest(AcquireStep(s, run, w)) && TreeKeysHonest(AbortStep(s, run, w))
    ensures AtWorker(s, run, w, Returned) ==> TreeKeysHonest(ReleaseStep(s, run, w))
  {
    if AtWorker(s, run, w, Waiting) {
      var r := s.runs[run];
      var pc := MoveWorker(r.pc, w, Holding);
      IdleMoveKeepsTreeKeys(s, run, w, pc.(slots := pc.slots + 1));
      var s1 := UpdateTree(s, r.task, r.pc.workers[w].tree, Finished);
      TasksDoNotMatter(s, s1);
      IdleMoveKeepsTreeKeys(s1, run, w, MoveWorker(r.pc, w, Done));
    }
    if AtWorker(s, run, w, Returned) {
      var pc := MoveWorker(s.runs[run].pc, w, Done);
      IdleMoveKeepsTreeKeys(s, run, w, if pc.slots > 0 then pc.(slots := pc.slots - 1) else pc);
    }
  }

  lemma {:induction false} ForkKeepsTreeKeys(s: State, run: string, tree: string)
    requires TreeKeysHonest(s) && Enabled(s, Fork(run, tree))
    ensures TreeKeysHonest(ForkStep(s, run, tree))
  {
    var pc := s.runs[run].pc;
    var pc1 := if Interrupted(s, run) then pc.(rest := 0)
               else pc.(rest := pc.rest - 1, workers := pc.workers + [Worker(tree, Waiting)]);
    forall t | Executes(pc, t) ensures Executes(pc1, t) {
      var v :| 0 <= v < |pc.workers| && pc.workers[v] == Worker(t, Executing);
      assert pc1.workers[v] == pc.workers[v];
    }
    var s1 := if Interrupted(s, run) then s
              else AddTree(s, s.runs[run].task, Tree(tree, pc.stage, false, Running, run)).(ids := s.ids + {tree});
    TasksDoNotMatter(s, s1);
    assert forall key :: key in s.cancels && s.cancels[key].TreeContext? ==> TreeKeyHonest(s, key);
    PcKeepsTreeKeys(s1, run, pc1);
  }

  lemma {:induction false} JoinKeepsTreeKeys(s: State, run: string, tree: string)
    requires TreeKeysHonest(s) && Enabled(s, Join(run, tree))
    ensures TreeKeysHonest(JoinStep(s, run, tree))
  {
    var r := s.runs[run];
    IdleRunHasNoTreeKeys(s, run);
    QuitKeepsTreeKeys(s, run);
    PcKeepsTreeKeys(s, run, Deciding(r.pc.stage));
    var s1 := AddTree(s, r.task, Tree(tree, r.pc.stage, true, Running, run)).(ids := s.ids + {tree});
    TasksDoNotMatter(s, s1);
    RegisterKeepsTreeKeys(s1, run, tree, Validating(r.pc.stage, tree));
  }

  lemma {:induction false} ValidatedKeepsTreeKeys(s: State, run: string)
    requires TreeKeysHonest(s) && run in s.runs && s.runs[run].pc.Validating?
    ensures TreeKeysHonest(ValidatedStep(s, run)) && TreeKeysHonest(PanicStep(s, run))
  {
    var r := s.runs[run];
    var s1 := UpdateTree(s, r.task, r.pc.tree, Finished);
    TasksDoNotMatter(s, s1);
    forall x | x == s || x == s1
      ensures var y := x.(cancels := x.cancels - {TreeKey(r.task, r.pc.tree)}); TreeKeysHonest(y) && NoTreeKeys(y, run)
    {
      UnregisterKeepsTreeKeys(x, run, r.pc.tree, r.pc);
      var y := x.(cancels := x.cancels - {TreeKey(r.task, r.pc.tree)});
      assert y == WithPc(y, run, r.pc);
      assert forall key :: key in y.cancels && y.cancels[key].TreeContext? ==> TreeKeyHonest(y, key);
    }
    var y0 := s.(cancels := s.cancels - {TreeKey(r.task, r.pc.tree)});
    var y1 := s1.(cancels := s1.cancels - {TreeKey(r.task, r.pc.tree)});
    QuitKeepsTreeKeys(y0, run);
    QuitKeepsTreeKeys(y1, run);
    PcKeepsTreeKeys(y1, run, Deciding(r.pc.stage));
  }

  lemma {:induction false} EnterStageKeepsTreeKeys(s: State, run: string, planned: nat)
    requires TreeKeysHonest(s) && run in s.runs && s.runs[run].task in s.tasks && NoTreeKeys(s, run)
    ensures TreeKeysHonest(EnterStage(s, run, planned))
  {
    var task := s.runs[run].task;
    var k := s.tasks[task];
    var s1 := WithTask(s, task, OpenStage(k, run));
    TasksDoNotMatter(s, s1);
    PcKeepsTreeKeys(s1, run, Forking(k.forest + 1, Min(planned, k.maxTrees), [], 0));
  }

  lemma {:induction false} HeadKeepsTreeKeys(s: State, run: string)
    requires TreeKeysHonest(s) && run in s.runs && s.runs[run].pc.AtHead?
    ensures TreeKeysHonest(HeadStep(s, run))
  {
    IdleRunHasNoTreeKeys(s, run);
    var plan := s.runs[run].pc.plan;
    if Interrupted(s, run) || PlanNeedsClarification(plan) || plan.finished || plan.trees == 0 {
      QuitKeepsTreeKeys(s, run);
    } else if s.runs[run].task in s.tasks {
      EnterStageKeepsTreeKeys(s, run, plan.trees);
    } else {
      ExitKeepsTreeKeys(s, run);
    }
  }

  lemma {:induction false} PlanStepKeepsTreeKeys(s: State, run: string, plan: Plan)
    requires TreeKeysHonest(s) && run in s.runs && (s.runs[run].pc.Planning? || s.runs[run].pc.Deciding?)
    ensures TreeKeysHonest(PlanReturnedStep(s, run, plan)) && TreeKeysHonest(DecidedStep(s, run, plan))
  {
    IdleRunHasNoTreeKeys(s, run);
    QuitKeepsTreeKeys(s, run);
    PcKeepsTreeKeys(s, run, AtHead(NormalizePlan(plan)));
  }

  lemma {:induction false} FirstStepsKeepTreeKeys(s: State, run: string)
    requires TreeKeysHonest(s) && run in s.runs && (s.runs[run].pc.Starting? || s.runs[run].pc.Initialising?)
    ensures TreeKeysHonest(BeginStep(s, run)) && TreeKeysHonest(InitDoneStep(s, run))
  {
    IdleRunHasNoTreeKeys(s, run);
    QuitKeepsTreeKeys(s, run);
    ExitKeepsTreeKeys(s, run);
    PcKeepsTreeKeys(s, run, Initialising);
    PcKeepsTreeKeys(s, run, Planning);
  }

  lemma {:induction false} IdleStepKeepsTreeKeys(s: State, step: Step)
    requires TreeKeysHonest(s) && Enabled(s, step)
    requires step.Begin? || step.InitDone? || step.PlanReturned? || step.Head? || step.Decided?
    ensures TreeKeysHonest(Apply(s, step))
  {
    if step.Head? {
      HeadKeepsTreeKeys(s, step.run);
    } else if step.Begin? || step.InitDone? {
      FirstStepsKeepTreeKeys(s, step.run);
    } else {
      PlanStepKeepsTreeKeys(s, step.run, step.plan);
    }
  }

  lemma {:induction false} ResumeKeepsTreeKeys(s: State, resumed: seq<Resumption>)
    requires TreeKeysHonest(s) && s.runs.Keys <= s.ids
    requires forall i :: 0 <= i < |resumed| ==> Fresh(s, resumed[i].run)
    requires forall i, j :: 0 <= i < j < |resumed| ==> resumed[i].run != resumed[j].run
    ensures TreeKeysHonest(ResumeAll(s, resumed))
    decreases |resumed|
  {
    if resumed != [] {
      var first := resumed[0];
      if first.task in s.tasks {
        var s1 := WithTask(s, first.task, s.tasks[first.task].(status := Running, gardenerStatus := Running));
        TasksDoNotMatter(s, s1);
        StartKeepsTreeKeys(s1, first.task, first.run);
      }
      ResumeKeepsTreeKeys(ResumeOne(s, first), resumed[1..]);
    }
  }

  lemma {:induction false} UserStepKeepsTreeKeys(s: State, step: Step)
    requires Owned(s) && TreeKeysHonest(s) && Enabled(s, step) && !IsRunStep(step)
    ensures TreeKeysHonest(Apply(s, step))
  {
    match step {
      case Create(task, maxTrees, vague, run) =>
        var s1 := WithTask(s, task, NewTask(maxTrees)).(ids := s.ids + {task});
        TasksDoNotMatter(s, s1);
        TasksDoNotMatter(s, PauseTask(s1, task));
        StartKeepsTreeKeys(s1, task, run);
      case Send(task, run) =>
        TasksDoNotMatter(s, WithTask(s, task, MarkRunning(s.tasks[task])));
        StartKeepsTreeKeys(WithTask(s, task, MarkRunning(s.tasks[task])), task, run);
      case Cancel(task) => CancelKeepsTreeKeys(s, task);
      case StopMark(task) => TasksDoNotMatter(s, StopMarkStep(s, task));
      case DeleteEntry(task) => TasksDoNotMatter(s, DeleteEntryStep(s, task));
      case RemoveFiles(task) => TasksDoNotMatter(s, RemoveFilesStep(s, task));
      case WatchdogList => TasksDoNotMatter(s, s.(snapshot := RunningTasks(s)));
      case WatchdogSkip(task) => TasksDoNotMatter(s, s.(snapshot := s.snapshot - {task}));
      case WatchdogVisit(task, run) =>
        TasksDoNotMatter(s, s.(snapshot := s.snapshot - {task}));
        StartKeepsTreeKeys(s.(snapshot := s.snapshot - {task}), task, run);
      case Restart(revived, resumed) => ResumeKeepsTreeKeys(Reloaded(s, revived), resumed);
    }
  }

  lemma {:induction false} SlotStepKeepsTreeKeys(s: State, step: Step)
    requires Owned(s) && TreeKeysHonest(s) && Enabled(s, step) && (step.Acquire? || step.Abort? || step.Release?)
    ensures TreeKeysHonest(Apply(s, step))
  {
    SlotsKeepTreeKeys(s, step.run, step.worker);
  }

  lemma {:induction false} WorkerStepKeepsTreeKeys(s: State, step: Step)
    requires Owned(s) && TreeKeysHonest(s) && Enabled(s, step)
    requires step.Acquire? || step.Abort? || step.StartTree? || step.TreeReturned? || step.Release?
    ensures TreeKeysHonest(Apply(s, step))
  {
    if step.StartTree? {
      StartTreeKeepsTreeKeys(s, step.run, step.worker);
    } else if step.TreeReturned? {
      TreeReturnedKeepsTreeKeys(s, step.run, step.worker);
    } else {
      SlotStepKeepsTreeKeys(s, step);
    }
  }

  lemma {:induction false} StepKeepsTreeKeys(s: State, step: Step)
    requires Owned(s) && TreeKeysHonest(s) && Enabled(s, step)
    ensures TreeKeysHonest(Apply(s, step))
  {
    if !IsRunStep(step) {
      UserStepKeepsTreeKeys(s, step);
    } else if step.Begin? || step.InitDone? || step.PlanReturned? || step.Head? || step.Decided? {
      IdleStepKeepsTreeKeys(s, step);
    } else if step.Fork? {
      ForkKeepsTreeKeys(s, step.run, step.tree);
    } else if step.Join? {
      JoinKeepsTreeKeys(s, step.run, step.tree);
    } else if step.Validated? {
      ValidatedKeepsTreeKeys(s, step.run);
    } else if step.Panic? {
      if s.runs[step.run].pc.Validating? {
        ValidatedKeepsTreeKeys(s, step.run);
      } else {
        IdleRunHasNoTreeKeys(s, step.run);
        QuitKeepsTreeKeys(s, step.run);
      }
    } else {
      WorkerStepKeepsTreeKeys(s, step);
    }
  }
}
