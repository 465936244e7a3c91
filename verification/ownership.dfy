/** Who owns a running task.  In every reachable state a task marked Running
    is owned by the live run named in activeRuns, every other live run of the
    task has been cancelled, and cancelling one task reaches no other. */
module Ownership {
  import opened ProcessKeys
  import opened Protocol

  ghost predicate IdsKnown(s: State) {
    && (forall id :: id in s.ids ==> ColonFree(id))
    && s.tasks.Keys <= s.ids && s.removing.Keys <= s.ids
    && s.runs.Keys <= s.ids
    && s.snapshot <= s.ids
    && (forall r :: r in s.runs ==> s.runs[r].task in s.ids && PcKnown(s.ids, s.runs[r].pc))
  }

  // Every live run can be cancelled through its key ...
  ghost predicate Registered(s: State) {
    forall r :: r in s.runs ==>
      var key := RunKey(s.runs[r].task, r);
      key in s.cancels && s.cancels[key] == RunContext(r)
  }

  // ... and every run key names a live run of the task it starts with.
  ghost predicate KeysHonest(s: State) {
    forall key :: key in s.cancels && s.cancels[key].RunContext? ==>
      var r := s.cancels[key].run;
      r in s.runs && key == RunKey(s.runs[r].task, r)
  }

  ghost predicate HasOwner(s: State, task: string) {
    task in s.activeRuns && s.activeRuns[task] in s.runs && s.runs[s.activeRuns[task]].task == task
  }

  ghost predicate OwnedExcept(s: State, exempt: set<string>) {
    forall t :: t in s.tasks && t !in exempt && s.tasks[t].status.Running? ==> HasOwner(s, t)
  }

  ghost predicate Superseded(s: State) {
    forall r :: r in s.runs ==> Active(s, s.runs[r].task, r) || s.runs[r].cancelled
  }

  ghost predicate OwnershipExcept(s: State, exempt: set<string>) {
    IdsKnown(s) && Registered(s) && KeysHonest(s) && OwnedExcept(s, exempt) && Superseded(s)
  }

  ghost predicate Owned(s: State) {
    OwnershipExcept(s, {})
  }

  // ---- cancelling ----

  // cancelTaskProcesses cancels exactly the live runs of its task.
  lemma {:induction false} CancelIsExact(s: State, task: string)
    requires IdsKnown(s) && Registered(s) && KeysHonest(s)
    requires ColonFree(task)
    ensures forall r :: r in s.runs ==> (r in CancelledBy(s, task) <==> s.runs[r].task == task)
  {
    forall r | r in s.runs
      ensures r in CancelledBy(s, task) <==> s.runs[r].task == task
    {
      var key := RunKey(s.runs[r].task, r);
      CoversOnlyOwnKeys(task, s.runs[r].task, "gardener:" + r);
      if s.runs[r].task == task {
        assert key in s.cancels && Covers(task, key) && s.cancels[key].run == r;
      }
      if r in CancelledBy(s, task) {
        var k :| k in s.cancels && Covers(task, k) && s.cancels[k].RunContext? && s.cancels[k].run == r;
        assert k == key;
      }
    }
  }

  lemma {:induction false} CancelKeepsOwnership(s: State, task: string, exempt: set<string>)
    requires OwnershipExcept(s, exempt)
    ensures OwnershipExcept(CancelTask(s, task), exempt)
  {
    var c := CancelTask(s, task);
    assert c.runs.Keys == s.runs.Keys;
    assert forall r :: r in s.runs ==> c.runs[r].task == s.runs[r].task;
  }

  // Cancelling one task never touches the runs of another, and it leaves no
  // live run of its own task uncancelled.
  lemma {:induction false} CancelIsIsolated(s: State, task: string)
    requires Owned(s) && ColonFree(task)
    ensures CancelTask(s, task).runs.Keys == s.runs.Keys
    ensures forall r :: r in s.runs ==>
      CancelTask(s, task).runs[r] ==
      if s.runs[r].task == task then s.runs[r].(cancelled := true) else s.runs[r]
  {
    CancelIsExact(s, task);
  }

  // ---- the building blocks keep ownership ----

  lemma {:induction false} LaunchKeepsOwnership(s: State, task: string, run: string, exempt: set<string>)
    requires OwnershipExcept(s, exempt)
    requires task in s.ids && Fresh(s, run)
    requires forall r :: r in s.runs && s.runs[r].task == task ==> s.runs[r].cancelled
    ensures OwnershipExcept(Launch(s, task, run), exempt - {task})
  {
    var s' := Launch(s, task, run);
    forall r | r in s.runs
      ensures RunKey(s.runs[r].task, r) != RunKey(task, run)
    {
      RunKeysDistinct(s.runs[r].task, r, task, run);
    }
    assert HasOwner(s', task);
    forall t | t in s'.tasks && t !in exempt - {task} && s'.tasks[t].status.Running?
      ensures HasOwner(s', t)
    {
      if t != task {
        assert HasOwner(s, t);
      }
    }
  }

  lemma {:induction false} StartKeepsOwnership(s: State, task: string, run: string, exempt: set<string>)
    requires OwnershipExcept(s, exempt)
    requires task in s.ids && Fresh(s, run)
    ensures OwnershipExcept(StartRun(s, task, run), exempt - {task})
  {
    CancelKeepsOwnership(s, task, exempt);
    CancelIsExact(s, task);
    LaunchKeepsOwnership(CancelTask(s, task), task, run, exempt);
  }

  lemma {:induction false} TaskUpdateKeepsOwnership(s: State, task: string, k: Task, exempt: set<string>)
    requires OwnershipExcept(s, exempt)
    requires task in s.ids
    requires k.status.Running? ==> task in exempt || HasOwner(s, task)
    ensures OwnershipExcept(WithTask(s, task, k), exempt)
  {
    var s' := WithTask(s, task, k);
    assert forall t :: HasOwner(s, t) ==> HasOwner(s', t);
  }

  lemma {:induction false} PcKeepsOwnership(s: State, run: string, pc: Pc, exempt: set<string>)
    requires OwnershipExcept(s, exempt) && run in s.runs && PcKnown(s.ids, pc)
    ensures OwnershipExcept(WithPc(s, run, pc), exempt)
  {
    var s' := WithPc(s, run, pc);
    assert s'.runs.Keys == s.runs.Keys;
    assert forall r :: r in s.runs ==> s'.runs[r].task == s.runs[r].task;
    assert forall t :: HasOwner(s, t) ==> HasOwner(s', t);
  }

  lemma {:induction false} ExitKeepsOwnership(s: State, run: string)
    requires Owned(s) && run in s.runs
    requires var t := s.runs[run].task; Active(s, t, run) && t in s.tasks ==> s.tasks[t].status.Finished?
    ensures Owned(ExitRun(s, run))
  {
    var s' := ExitRun(s, run);
    forall r | r in s'.runs
      ensures RunKey(s'.runs[r].task, r) in s'.cancels
    {
      RunKeysDistinct(s.runs[r].task, r, s.runs[run].task, run);
    }
    forall t | t in s'.tasks && s'.tasks[t].status.Running?
      ensures HasOwner(s', t)
    {
      assert HasOwner(s, t);
    }
  }

  lemma {:induction false} TreeKeyAddKeepsOwnership(s: State, task: string, run: string, tree: string)
    requires Owned(s) && task in s.ids && tree in s.ids
    ensures Owned(s.(cancels := s.cancels[TreeKey(task, tree) := TreeContext(run, tree)]))
  {
    var key := TreeKey(task, tree);
    var s' := s.(cancels := s.cancels[key := TreeContext(run, tree)]);
    forall r | r in s.runs
      ensures RunKey(s.runs[r].task, r) != key
    {
      TreeKeyIsNotRunKey(task, tree, s.runs[r].task, r);
    }
    assert forall t :: HasOwner(s, t) ==> HasOwner(s', t);
  }

  lemma {:induction false} TreeKeyDropKeepsOwnership(s: State, task: string, tree: string)
    requires Owned(s) && ColonFree(task) && ColonFree(tree)
    ensures Owned(s.(cancels := s.cancels - {TreeKey(task, tree)}))
  {
    var key := TreeKey(task, tree);
    var s' := s.(cancels := s.cancels - {key});
    forall r | r in s.runs
      ensures RunKey(s.runs[r].task, r) != key
    {
      TreeKeyIsNotRunKey(task, tree, s.runs[r].task, r);
    }
    assert forall t :: HasOwner(s, t) ==> HasOwner(s', t);
  }

  lemma {:induction false} NewIdKeepsOwnership(s: State, id: string)
    requires Owned(s) && ColonFree(id)
    ensures Owned(s.(ids := s.ids + {id}))
  {
    var s' := s.(ids := s.ids + {id});
    assert forall t :: HasOwner(s, t) ==> HasOwner(s', t);
  }

  // ---- every step keeps ownership ----

  lemma {:induction false} TaskEditKeepsOwnership(s: State, task: string, k: Task)
    requires Owned(s) && task in s.tasks
    requires k.status == s.tasks[task].status || k.status.Finished?
    ensures Owned(WithTask(s, task, k))
  {
    TaskUpdateKeepsOwnership(s, task, k, {});
  }

  lemma {:induction false} QuitKeepsOwnership(s: State, run: string)
    requires Owned(s) && run in s.runs
    ensures Owned(QuitFinished(s, run)) && Owned(QuitPaused(s, run))
  {
    var task := s.runs[run].task;
    if Active(s, task, run) {
      if task in s.tasks {
        TaskEditKeepsOwnership(s, task, MarkFinished(s.tasks[task]));
        TaskEditKeepsOwnership(s, task, MarkPaused(s.tasks[task]));
      }
      ExitKeepsOwnership(FinishTask(s, task), run);
      ExitKeepsOwnership(PauseTask(s, task), run);
    } else {
      ExitKeepsOwnership(s, run);
    }
  }

  lemma {:induction false} UpdateTreeKeepsOwnership(s: State, task: string, tree: string, status: Status)
    requires Owned(s)
    ensures Owned(UpdateTree(s, task, tree, status))
  {
    if task in s.tasks {
      TaskEditKeepsOwnership(s, task, s.tasks[task].(trees := SetTreeStatus(s.tasks[task].trees, tree, status)));
    }
  }

  lemma {:induction false} AddTreeKeepsOwnership(s: State, task: string, tree: Tree)
    requires Owned(s) && ColonFree(tree.id)
    ensures Owned(AddTree(s, task, tree).(ids := s.ids + {tree.id}))
  {
    if task in s.tasks {
      TaskEditKeepsOwnership(s, task, s.tasks[task].(trees := s.tasks[task].trees + [tree]));
    }
    NewIdKeepsOwnership(AddTree(s, task, tree), tree.id);
  }

  // A run that has not been interrupted owns its task.
  lemma {:induction false} UninterruptedIsActive(s: State, run: string)
    requires Owned(s) && run in s.runs && !Interrupted(s, run)
    ensures Active(s, s.runs[run].task, run) && HasOwner(s, s.runs[run].task)
  {
  }

  lemma {:induction false} EnterStageKeepsOwnership(s: State, run: string, planned: nat)
    requires Owned(s) && run in s.runs && s.runs[run].task in s.tasks && !Interrupted(s, run)
    ensures Owned(EnterStage(s, run, planned))
  {
    var task := s.runs[run].task;
    UninterruptedIsActive(s, run);
    var k := s.tasks[task];
    var pc := Forking(k.forest + 1, Min(planned, k.maxTrees), [], 0);
    TaskUpdateKeepsOwnership(s, task, OpenStage(k, run), {});
    PcKeepsOwnership(WithTask(s, task, OpenStage(k, run)), run, pc, {});
    assert EnterStage(s, run, planned) == WithPc(WithTask(s, task, OpenStage(k, run)), run, pc);
  }

  lemma {:induction false} HeadKeepsOwnership(s: State, run: string)
    requires Owned(s) && run in s.runs && s.runs[run].pc.AtHead?
    ensures Owned(HeadStep(s, run))
  {
    var plan := s.runs[run].pc.plan;
    if Interrupted(s, run) || PlanNeedsClarification(plan) || plan.finished || plan.trees == 0 {
      QuitKeepsOwnership(s, run);
    } else if s.runs[run].task in s.tasks {
      EnterStageKeepsOwnership(s, run, plan.trees);
    } else {
      ExitKeepsOwnership(s, run);
    }
  }

  lemma {:induction false} PcGrowsKnown(ids: set<string>, pc: Pc, tree: string)
    requires pc.Forking? && pc.rest > 0 && PcKnown(ids, pc)
    ensures PcKnown(ids + {tree}, pc.(rest := pc.rest - 1, workers := pc.workers + [Worker(tree, Waiting)]))
  {
  }

  lemma {:induction false} SpawnKeepsOwnership(s: State, run: string, tree: string)
    requires Owned(s) && Enabled(s, Fork(run, tree))
    ensures Owned(SpawnTree(s, run, tree))
  {
    var pc := s.runs[run].pc;
    var t := Tree(tree, pc.stage, false, Running, run);
    AddTreeKeepsOwnership(s, s.runs[run].task, t);
    var s1 := AddTree(s, s.runs[run].task, t).(ids := s.ids + {tree});
    var pc1 := pc.(rest := pc.rest - 1, workers := pc.workers + [Worker(tree, Waiting)]);
    PcGrowsKnown(s.ids, pc, tree);
    assert s1.runs == s.runs;
    PcKeepsOwnership(s1, run, pc1, {});
    assert SpawnTree(s, run, tree) == WithPc(s1, run, pc1);
  }

  lemma {:induction false} ForkKeepsOwnership(s: State, run: string, tree: string)
    requires Owned(s) && Enabled(s, Fork(run, tree))
    ensures Owned(ForkStep(s, run, tree))
  {
    if Interrupted(s, run) {
      PcKeepsOwnership(s, run, s.runs[run].pc.(rest := 0), {});
    } else {
      SpawnKeepsOwnership(s, run, tree);
    }
  }

  lemma {:induction false} StartTreeKeepsOwnership(s: State, run: string, w: nat)
    requires Owned(s) && AtWorker(s, run, w, Holding)
    ensures Owned(StartTreeStep(s, run, w))
  {
    var r := s.runs[run];
    var tree := r.pc.workers[w].tree;
    if r.task in s.tasks && HasTree(s.tasks[r.task].trees, tree) {
      UpdateTreeKeepsOwnership(s, r.task, tree, Running);
      var s1 := UpdateTree(s, r.task, tree, Running);
      TreeKeyAddKeepsOwnership(s1, r.task, run, tree);
      var s2 := s1.(cancels := s1.cancels[TreeKey(r.task, tree) := TreeContext(run, tree)]);
      PcKeepsOwnership(s2, run, MoveWorker(r.pc, w, Executing), {});
    } else {
      PcKeepsOwnership(s, run, MoveWorker(r.pc, w, Returned), {});
    }
  }

  lemma {:induction false} TreeReturnedKeepsOwnership(s: State, run: string, w: nat)
    requires Owned(s) && AtWorker(s, run, w, Executing)
    ensures Owned(TreeReturnedStep(s, run, w))
  {
    var r := s.runs[run];
    var tree := r.pc.workers[w].tree;
    UpdateTreeKeepsOwnership(s, r.task, tree, Finished);
    var s1 := UpdateTree(s, r.task, tree, Finished);
    TreeKeyDropKeepsOwnership(s1, r.task, tree);
    PcKeepsOwnership(s1.(cancels := s1.cancels - {TreeKey(r.task, tree)}), run, MoveWorker(r.pc, w, Returned), {});
  }

  lemma {:induction false} SlotsKeepOwnership(s: State, run: string, w: nat)
    requires Owned(s)
    ensures AtWorker(s, run, w, Waiting) ==> Owned(AcquireStep(s, run, w)) && Owned(AbortStep(s, run, w))
    ensures AtWorker(s, run, w, Returned) ==> Owned(ReleaseStep(s, run, w))
  {
    if AtWorker(s, run, w, Waiting) {
      var r := s.runs[run];
      var pc := MoveWorker(r.pc, w, Holding);
      PcKeepsOwnership(s, run, pc.(slots := pc.slots + 1), {});
      var tree := r.pc.workers[w].tree;
      UpdateTreeKeepsOwnership(s, r.task, tree, Finished);
      PcKeepsOwnership(UpdateTree(s, r.task, tree, Finished), run, MoveWorker(r.pc, w, Done), {});
    }
    if AtWorker(s, run, w, Returned) {
      var pc := MoveWorker(s.runs[run].pc, w, Done);
      PcKeepsOwnership(s, run, if pc.slots > 0 then pc.(slots := pc.slots - 1) else pc, {});
    }
  }

  lemma {:induction false} JoinKeepsOwnership(s: State, run: string, tree: string)
    requires Owned(s) && Enabled(s, Join(run, tree))
    ensures Owned(JoinStep(s, run, tree))
  {
    var task := s.runs[run].task;
    var stage := s.runs[run].pc.stage;
    QuitKeepsOwnership(s, run);
    if !Interrupted(s, run) {
      if task !in s.tasks {
        PcKeepsOwnership(s, run, Deciding(stage), {});
      } else {
        var t := Tree(tree, stage, true, Running, run);
        AddTreeKeepsOwnership(s, task, t);
        var s1 := AddTree(s, task, t).(ids := s.ids + {tree});
        TreeKeyAddKeepsOwnership(s1, task, run, tree);
        PcKeepsOwnership(s1.(cancels := s1.cancels[TreeKey(task, tree) := TreeContext(run, tree)]), run,
                         Validating(stage, tree), {});
      }
    }
  }

  lemma {:induction false} ValidatedKeepsOwnership(s: State, run: string)
    requires Owned(s) && Enabled(s, Validated(run))
    ensures Owned(ValidatedStep(s, run))
  {
    var r := s.runs[run];
    UpdateTreeKeepsOwnership(s, r.task, r.pc.tree, Finished);
    var s1 := UpdateTree(s, r.task, r.pc.tree, Finished);
    TreeKeyDropKeepsOwnership(s1, r.task, r.pc.tree);
    var s2 := s1.(cancels := s1.cancels - {TreeKey(r.task, r.pc.tree)});
    QuitKeepsOwnership(s2, run);
    PcKeepsOwnership(s2, run, Deciding(r.pc.stage), {});
  }

  lemma {:induction false} PlanningKeepsOwnership(s: State, step: Step)
    requires Owned(s) && Enabled(s, step)
    requires step.Begin? || step.InitDone? || step.PlanReturned?
    ensures Owned(Apply(s, step))
  {
    var run := step.run;
    match step {
      case Begin(_) =>
        if s.runs[run].task in s.tasks {
          PcKeepsOwnership(s, run, Initialising, {});
        } else {
          ExitKeepsOwnership(s, run);
        }
      case InitDone(_) =>
        if Interrupted(s, run) { QuitKeepsOwnership(s, run); } else { PcKeepsOwnership(s, run, Planning, {}); }
      case PlanReturned(_, plan) =>
        PcKeepsOwnership(s, run, AtHead(NormalizePlan(plan)), {});
    }
  }

  lemma {:induction false} DecidedKeepsOwnership(s: State, run: string, plan: Plan)
    requires Owned(s) && Enabled(s, Decided(run, plan))
    ensures Owned(DecidedStep(s, run, plan))
  {
    QuitKeepsOwnership(s, run);
    PcKeepsOwnership(s, run, AtHead(NormalizePlan(plan)), {});
  }

  lemma {:induction false} PanicKeepsOwnership(s: State, run: string)
    requires Owned(s) && Enabled(s, Panic(run))
    ensures Owned(PanicStep(s, run))
  {
    var r := s.runs[run];
    if r.pc.Validating? {
      TreeKeyDropKeepsOwnership(s, r.task, r.pc.tree);
      QuitKeepsOwnership(s.(cancels := s.cancels - {TreeKey(r.task, r.pc.tree)}), run);
    } else {
      QuitKeepsOwnership(s, run);
    }
  }

  lemma {:induction false} CreateKeepsOwnership(s: State, task: string, maxTrees: nat, vague: bool, run: string)
    requires Owned(s) && Enabled(s, Create(task, maxTrees, vague, run))
    ensures Owned(CreateStep(s, task, maxTrees, vague, run))
  {
    NewIdKeepsOwnership(s, task);
    var s0 := s.(ids := s.ids + {task});
    var s1 := WithTask(s0, task, NewTask(maxTrees));
    assert OwnershipExcept(s0, {task});
    TaskUpdateKeepsOwnership(s0, task, NewTask(maxTrees), {task});
    if vague {
      TaskUpdateKeepsOwnership(s0, task, MarkPaused(NewTask(maxTrees)), {});
      assert s0.tasks[task := NewTask(maxTrees)][task := MarkPaused(NewTask(maxTrees))] ==
             s0.tasks[task := MarkPaused(NewTask(maxTrees))];
    } else {
      StartKeepsOwnership(s1, task, run, {task});
      assert {task} - {task} == {};
    }
  }

  lemma {:induction false} SendKeepsOwnership(s: State, task: string, run: string)
    requires Owned(s) && Enabled(s, Send(task, run))
    ensures Owned(SendStep(s, task, run))
  {
    assert OwnershipExcept(s, {task});
    TaskUpdateKeepsOwnership(s, task, MarkRunning(s.tasks[task]), {task});
    StartKeepsOwnership(WithTask(s, task, MarkRunning(s.tasks[task])), task, run, {task});
    assert {task} - {task} == {};
  }

  lemma {:induction false} DeleteKeepsOwnership(s: State, task: string)
    requires Owned(s) && task in s.tasks
    ensures Owned(DeleteEntryStep(s, task))
  {
    var s' := DeleteEntryStep(s, task);
    assert forall t :: HasOwner(s, t) ==> HasOwner(s', t);
  }

  lemma {:induction false} SnapshotKeepsOwnership(s: State, snapshot: set<string>)
    requires Owned(s) && snapshot <= s.ids
    ensures Owned(s.(snapshot := snapshot))
  {
    var s' := s.(snapshot := snapshot);
    assert forall t :: HasOwner(s, t) ==> HasOwner(s', t);
  }

  lemma {:induction false} RemovingKeepsOwnership(s: State, removing: map<string, Task>)
    requires Owned(s) && removing.Keys <= s.ids
    ensures Owned(s.(removing := removing))
  {
    var s' := s.(removing := removing);
    assert forall t :: HasOwner(s, t) ==> HasOwner(s', t);
  }

  // ---- restart ----

  function ToResume(resumed: seq<Resumption>): set<string> {
    set i | 0 <= i < |resumed| :: resumed[i].task
  }

  lemma {:induction false} ResumeKeepsOwnership(s: State, resumed: seq<Resumption>)
    requires OwnershipExcept(s, ToResume(resumed))
    requires forall i :: 0 <= i < |resumed| ==> resumed[i].task in s.tasks && Fresh(s, resumed[i].run)
    requires forall i, j :: 0 <= i < j < |resumed| ==>
      resumed[i].task != resumed[j].task && resumed[i].run != resumed[j].run
    ensures Owned(ResumeAll(s, resumed))
    decreases |resumed|
  {
    if resumed == [] {
      assert ToResume(resumed) == {};
    } else {
      var first := resumed[0];
      var pending := ToResume(resumed);
      assert first.task in pending;
      var k := s.tasks[first.task].(status := Running, gardenerStatus := Running);
      TaskUpdateKeepsOwnership(s, first.task, k, pending);
      StartKeepsOwnership(WithTask(s, first.task, k), first.task, first.run, pending);
      var s1 := ResumeOne(s, first);
      assert pending - {first.task} == ToResume(resumed[1..]) by {
        assert forall i :: 1 <= i < |resumed| ==> resumed[i] == resumed[1..][i - 1];
        forall t | t in pending - {first.task} ensures t in ToResume(resumed[1..]) {
          var i :| 0 <= i < |resumed| && resumed[i].task == t;
          assert resumed[1..][i - 1].task == t;
        }
      }
      ResumeKeepsOwnership(s1, resumed[1..]);
    }
  }

  ghost predicate StopMeansFinished(s: State) {
    forall t :: t in Found(s) && Found(s)[t].stopRequested ==> Found(s)[t].status.Finished?
  }

  lemma {:induction false} RestartKeepsOwnership(s: State, revived: set<string>, resumed: seq<Resumption>)
    requires Owned(s) && StopMeansFinished(s)
    requires MayRevive(s, revived) && Resumes(Reloaded(s, revived), resumed)
    ensures Owned(RestartStep(s, revived, resumed))
  {
    var s0 := Reloaded(s, revived);
    forall t | t in s0.tasks && s0.tasks[t].status.Running?
      ensures t in ToResume(resumed)
    {
      assert Unfinished(s0.tasks[t]);
    }
    ResumeKeepsOwnership(s0, resumed);
  }

  lemma {:induction false} UserStepKeepsOwnership(s: State, step: Step)
    requires Owned(s) && StopMeansFinished(s) && Enabled(s, step) && !IsRunStep(step)
    ensures Owned(Apply(s, step))
  {
    match step {
      case Create(task, maxTrees, vague, run) => CreateKeepsOwnership(s, task, maxTrees, vague, run);
      case Send(task, run) => SendKeepsOwnership(s, task, run);
      case Cancel(task) => CancelKeepsOwnership(s, task, {});
      case StopMark(task) => if task in s.tasks { TaskEditKeepsOwnership(s, task, MarkStopped(s.tasks[task])); }
      case DeleteEntry(task) => DeleteKeepsOwnership(s, task);
      case RemoveFiles(_) => RemovingKeepsOwnership(s, Apply(s, step).removing);
      case WatchdogList => SnapshotKeepsOwnership(s, RunningTasks(s));
      case WatchdogSkip(task) => SnapshotKeepsOwnership(s, s.snapshot - {task});
      case WatchdogVisit(task, run) =>
        SnapshotKeepsOwnership(s, s.snapshot - {task});
        StartKeepsOwnership(s.(snapshot := s.snapshot - {task}), task, run, {});
        assert {} - {task} == {};
      case Restart(_, resumed) => RestartKeepsOwnership(s, step.revived, resumed);
    }
  }

  lemma {:induction false} SlotStepKeepsOwnership(s: State, step: Step)
    requires Owned(s) && Enabled(s, step) && (step.Acquire? || step.Abort? || step.Release?)
    ensures Owned(Apply(s, step))
  {
    SlotsKeepOwnership(s, step.run, step.worker);
  }

  lemma {:induction false} WorkerStepKeepsOwnership(s: State, step: Step)
    requires Owned(s) && Enabled(s, step)
    requires step.Acquire? || step.Abort? || step.StartTree? || step.TreeReturned? || step.Release?
    ensures Owned(Apply(s, step))
  {
    if step.StartTree? {
      StartTreeKeepsOwnership(s, step.run, step.worker);
    } else if step.TreeReturned? {
      TreeReturnedKeepsOwnership(s, step.run, step.worker);
    } else {
      SlotStepKeepsOwnership(s, step);
    }
  }

  lemma {:induction false} RunStepKeepsOwnership(s: State, step: Step)
    requires Owned(s) && Enabled(s, step) && IsRunStep(step)
    ensures Owned(Apply(s, step))
  {
    if step.Begin? || step.InitDone? || step.PlanReturned? {
      PlanningKeepsOwnership(s, step);
    } else if step.Head? {
      HeadKeepsOwnership(s, step.run);
    } else if step.Fork? {
      ForkKeepsOwnership(s, step.run, step.tree);
    } else if step.Join? {
      JoinKeepsOwnership(s, step.run, step.tree);
    } else if step.Validated? {
      ValidatedKeepsOwnership(s, step.run);
    } else if step.Decided? {
      DecidedKeepsOwnership(s, step.run, step.plan);
    } else if step.Panic? {
      PanicKeepsOwnership(s, step.run);
    } else {
      WorkerStepKeepsOwnership(s, step);
    }
  }

  lemma {:induction false} StepKeepsOwnership(s: State, step: Step)
    requires Owned(s) && StopMeansFinished(s) && Enabled(s, step)
    ensures Owned(Apply(s, step))
  {
    if IsRunStep(step) {
      RunStepKeepsOwnership(s, step);
    } else {
      UserStepKeepsOwnership(s, step);
    }
  }
}
