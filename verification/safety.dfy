/** The theorems over whole runs of the service. */
module Safety {
  import opened ProcessKeys
  import opened Protocol
  import opened Ownership
  import opened Stages
  import opened LiveKeys
  import opened Flags
  import opened ForkJoin

  ghost predicate Inv(s: State) {
    && Owned(s)
    && Staged(s)
    && TreeKeysHonest(s)
    && AllAgree(s)
    && SlotsOk(s)
    && s.maxConcurrent > 0
  }

  lemma {:induction false} StepKeepsLimit(s: State, step: Step)
    requires SlotsOk(s) && Enabled(s, step) && s.runs.Keys <= s.ids
    ensures Apply(s, step).maxConcurrent == s.maxConcurrent
  {
    if IsRunStep(step) && StageStep(step, step.run) {
      StageStepMoves(s, step, step.run);
    } else {
      OtherStepLeavesStages(s, step);
    }
  }

  // Every action of every goroutine keeps the whole invariant.
  lemma {:induction false} StepKeepsInv(s: State, step: Step)
    requires Inv(s) && Enabled(s, step)
    ensures Inv(Apply(s, step))
  {
    StepKeepsOwnership(s, step);
    StepKeepsStages(s, step);
    StepKeepsTreeKeys(s, step);
    StepKeepsAgreement(s, step);
    StepKeepsSlots(s, step);
    StepKeepsLimit(s, step);
  }

  lemma {:induction false} InvAfter(s: State, steps: seq<Step>)
    requires Inv(s) && CanRun(s, steps)
    ensures Inv(After(s, steps))
    decreases |steps|
  {
    if steps != [] {
      StepKeepsInv(s, steps[0]);
      InvAfter(Apply(s, steps[0]), steps[1..]);
    }
  }

  lemma {:induction false} ReachableIsSafe(s: State)
    requires Reachable(s)
    ensures Inv(s)
  {
    var s0, steps :| Init(s0) && CanRun(s0, steps) && After(s0, steps) == s;
    InvAfter(s0, steps);
  }

  // ---- ownership, for every reachable state ----

  lemma {:induction false} RunningTaskIsOwned(s: State, task: string)
    requires Reachable(s) && task in s.tasks && s.tasks[task].status.Running?
    ensures task in s.activeRuns
    ensures s.activeRuns[task] in s.runs && s.runs[s.activeRuns[task]].task == task
    ensures forall r :: r in s.runs && s.runs[r].task == task && r != s.activeRuns[task] ==> s.runs[r].cancelled
  {
    ReachableIsSafe(s);
    assert HasOwner(s, task);
    assert Superseded(s);
  }

  // ---- stages, for every reachable state ----

  ghost predicate Disciplined(k: Task) {
    && (forall i :: 0 <= i < |k.trees| ==> 1 <= k.trees[i].stage <= k.forest)
    && (forall i, j :: 0 <= i < |k.trees| && 0 <= j < |k.trees| && k.trees[i].stage == k.trees[j].stage ==>
        k.trees[i].run == k.trees[j].run)
    && (forall n: nat :: Ordinary(k.trees, n) <= k.maxTrees)
    && ValidationLast(k.trees)
  }

  lemma {:induction false} ShapeIsDisciplined(k: Task)
    requires TaskShape(k)
    ensures Disciplined(k)
  {
  }

  lemma {:induction false} StageDiscipline(s: State, task: string)
    requires Reachable(s) && task in s.tasks
    ensures Disciplined(s.tasks[task])
  {
    ReachableIsSafe(s);
    ShapeIsDisciplined(s.tasks[task]);
  }

  lemma {:induction false} ResumeKeepsTasks(s: State, resumed: seq<Resumption>)
    ensures var s1 := ResumeAll(s, resumed);
      && s1.tasks.Keys == s.tasks.Keys && s1.removing == s.removing && s.ids <= s1.ids
      && forall t :: t in s.tasks ==> s1.tasks[t].forest == s.tasks[t].forest
    decreases |resumed|
  {
    if resumed != [] {
      ResumeKeepsTasks(ResumeOne(s, resumed[0]), resumed[1..]);
    }
  }

  lemma {:induction false} ServiceKeepsForest(s: State, step: Step, task: string)
    requires Enabled(s, step) && !IsRunStep(step) && s.tasks.Keys <= s.ids
    requires task in s.tasks && task in Apply(s, step).tasks
    ensures Apply(s, step).tasks[task].forest == s.tasks[task].forest
  {
    if step.Restart? {
      ResumeKeepsTasks(Reloaded(s, step.revived), step.resumed);
    }
  }

  ghost predicate ForestSteps(s: State, step: Step, task: string, s1: State) {
    task in s.tasks && task in s1.tasks ==>
      s1.tasks[task].forest == s.tasks[task].forest ||
      (s1.tasks[task].forest == s.tasks[task].forest + 1 && IsRunStep(step) && Active(s, task, step.run))
  }

  lemma {:induction false} EffectOnForest(s: State, run: string, s1: State, task: string)
    requires Owned(s) && run in s.runs && FlagEffect(s, run, s1) && task in s.tasks
    ensures task in s1.tasks
    ensures s1.tasks[task].forest != s.tasks[task].forest ==>
      s1.tasks[task].forest == s.tasks[task].forest + 1 && Active(s, task, run)
  {
    EffectIsByOwner(s, run, s1, task);
  }

  lemma {:induction false} RunStepsForest(s: State, step: Step, task: string)
    requires Owned(s) && Enabled(s, step) && IsRunStep(step) && task in s.tasks
    ensures ForestSteps(s, step, task, Apply(s, step))
  {
    RunStepEffect(s, step);
    EffectOnForest(s, step.run, Apply(s, step), task);
  }

  // Over every step and every task that survives it, the stage counter stays or
  // grows by one, and it grows only by a step of the active run.
  lemma {:induction false} ForestGrowsByOne(s: State, step: Step, task: string)
    requires Reachable(s) && Enabled(s, step)
    ensures ForestSteps(s, step, task, Apply(s, step))
  {
    ReachableIsSafe(s);
    if task in s.tasks && task in Apply(s, step).tasks {
      if IsRunStep(step) {
        RunStepsForest(s, step, task);
      } else {
        ServiceKeepsForest(s, step, task);
      }
    }
  }

  // ---- deleted tasks ----

  lemma {:induction false} UserStepKeepsIds(s: State, step: Step)
    requires Enabled(s, step) && !IsRunStep(step) && !step.Restart?
    ensures s.ids <= Apply(s, step).ids
  {
  }

  lemma {:induction false} IdsOnlyGrow(s: State, step: Step)
    requires Enabled(s, step)
    ensures s.ids <= Apply(s, step).ids
  {
    if step.Restart? {
      ResumeKeepsTasks(Reloaded(s, step.revived), step.resumed);
    } else if IsRunStep(step) {
      RunStepEffect(s, step);
    } else {
      UserStepKeepsIds(s, step);
    }
  }

  // What one step makes of a task that is not in memory: it comes back if the step
  // is a restart that finds its files.
  ghost predicate AbsentAfter(s: State, step: Step, task: string, s1: State) {
    && (task in s1.tasks <==> step.Restart? && task in s.removing)
    && (task in s1.removing <==> task in s.removing && !step.Restart? && step != RemoveFiles(task))
  }

  lemma {:induction false} RestartOnAbsent(s: State, revived: set<string>, resumed: seq<Resumption>, task: string)
    requires task !in s.tasks
    ensures AbsentAfter(s, Restart(revived, resumed), task, RestartStep(s, revived, resumed))
  {
    ResumeKeepsTasks(Reloaded(s, revived), resumed);
  }

  lemma {:induction false} UserStepOnAbsent(s: State, step: Step, task: string)
    requires Enabled(s, step) && !IsRunStep(step) && !step.Restart? && task in s.ids && task !in s.tasks
    ensures AbsentAfter(s, step, task, Apply(s, step))
  {
  }

  lemma {:induction false} StepOnAbsent(s: State, step: Step, task: string)
    requires Enabled(s, step) && task in s.ids && task !in s.tasks
    ensures task in Apply(s, step).ids && AbsentAfter(s, step, task, Apply(s, step))
  {
    IdsOnlyGrow(s, step);
    if IsRunStep(step) {
      RunStepEffect(s, step);
    } else if step.Restart? {
      RestartOnAbsent(s, step.revived, step.resumed, task);
    } else {
      UserStepOnAbsent(s, step, task);
    }
  }

  // Once the files of a deleted task have begun to go, no step of a run that is
  // still alive, and nothing else, brings the task back.
  lemma {:induction false} DeletedTaskNeverReturns(s: State, steps: seq<Step>, task: string)
    requires Inv(s) && CanRun(s, steps) && task in s.ids && task !in s.tasks && task !in s.removing
    ensures task !in After(s, steps).tasks
    decreases |steps|
  {
    if steps != [] {
      StepKeepsInv(s, steps[0]);
      StepOnAbsent(s, steps[0], task);
      DeletedTaskNeverReturns(Apply(s, steps[0]), steps[1..], task);
    }
  }

  // The service restarts before the removal begins.
  predicate RestartsFirst(steps: seq<Step>, task: string) {
    steps != [] && (steps[0].Restart? || (steps[0] != RemoveFiles(task) && RestartsFirst(steps[1..], task)))
  }

  lemma {:induction false} StepKeepsPresent(s: State, step: Step, task: string)
    requires Enabled(s, step) && task in s.tasks && step != DeleteEntry(task)
    ensures task in Apply(s, step).tasks
  {
    if IsRunStep(step) {
      RunStepEffect(s, step);
    } else if step.Restart? {
      ResumeKeepsTasks(Reloaded(s, step.revived), step.resumed);
    }
  }

  lemma {:induction false} PresentStays(s: State, steps: seq<Step>, task: string)
    requires Inv(s) && CanRun(s, steps) && task in s.tasks && DeleteEntry(task) !in steps
    ensures task in After(s, steps).tasks
    decreases |steps|
  {
    if steps != [] {
      StepKeepsInv(s, steps[0]);
      StepKeepsPresent(s, steps[0], task);
      PresentStays(Apply(s, steps[0]), steps[1..], task);
    }
  }

  // Between the two halves of its deletion a task comes back exactly when the
  // service restarts there.
  lemma {:induction false} DeletedTaskReturnsExactly(s: State, steps: seq<Step>, task: string)
    requires Inv(s) && CanRun(s, steps) && DeleteEntry(task) !in steps
    requires task in s.ids && task !in s.tasks && task in s.removing
    ensures task in After(s, steps).tasks <==> RestartsFirst(steps, task)
    decreases |steps|
  {
    if steps != [] {
      var s1 := Apply(s, steps[0]);
      StepKeepsInv(s, steps[0]);
      StepOnAbsent(s, steps[0], task);
      if steps[0].Restart? {
        PresentStays(s1, steps[1..], task);
      } else if steps[0] == RemoveFiles(task) {
        DeletedTaskNeverReturns(s1, steps[1..], task);
      } else {
        DeletedTaskReturnsExactly(s1, steps[1..], task);
      }
    }
  }

  // The first half takes the entry away and leaves the files; nothing else changes.
  lemma {:induction false} EntryGoesFirst(s: State, task: string)
    requires task in s.tasks
    ensures Apply(s, DeleteEntry(task)) ==
      s.(tasks := map t | t in s.tasks && t != task :: s.tasks[t], removing := s.removing[task := s.tasks[task]])
  {
    assert s.tasks - {task} == map t | t in s.tasks && t != task :: s.tasks[t];
  }

  lemma {:induction false} EntryKeepsInv(s: State, task: string)
    requires Reachable(s) && task in s.tasks
    ensures Inv(Apply(s, DeleteEntry(task))) && task in s.ids
  {
    ReachableIsSafe(s);
    StepKeepsInv(s, DeleteEntry(task));
  }

  // What comes of the task depends on what comes first after it.
  lemma {:induction false} DeletionTakesHalves(s: State, steps: seq<Step>, task: string)
    requires Reachable(s) && task in s.tasks && CanRun(Apply(s, DeleteEntry(task)), steps)
    requires DeleteEntry(task) !in steps
    ensures task in After(Apply(s, DeleteEntry(task)), steps).tasks <==> RestartsFirst(steps, task)
  {
    EntryKeepsInv(s, task);
    EntryGoesFirst(s, task);
    DeletedTaskReturnsExactly(Apply(s, DeleteEntry(task)), steps, task);
  }

  // ---- the watchdog ----

  // A visit starts a run exactly when no run of the task is alive; and while a
  // task is running one of its runs is.
  lemma {:induction false} VisitStartsExactly(s: State, task: string, run: string)
    requires Reachable(s) && Enabled(s, WatchdogVisit(task, run))
    ensures run in Apply(s, WatchdogVisit(task, run)).runs <==> !HasLiveRun(s, task)
    ensures HasProcesses(s, task) <==> HasLiveRun(s, task)
    ensures task in s.tasks && s.tasks[task].status.Running? ==> HasLiveRun(s, task)
  {
    ReachableIsSafe(s);
    ProcessesIffLiveRun(s, task);
    if task in s.tasks {
      RunningTaskHasLiveRun(s, task);
    }
  }

  // ---- fork and join ----

  // Slots held equal the occupancy of the semaphore and never exceed the limit.
  lemma {:induction false} SlotsAreBounded(s: State, run: string)
    requires Reachable(s) && run in s.runs && s.runs[run].pc.Forking?
    ensures s.runs[run].pc.slots == Holders(s.runs[run].pc.workers) <= s.maxConcurrent
  {
    ReachableIsSafe(s);
  }

  ghost predicate StageFinished(trees: seq<Tree>, stage: nat) {
    forall i :: 0 <= i < |trees| && trees[i].stage == stage ==> trees[i].status.Finished?
  }

  // Whenever a stage can be joined, its subtasks have finished, whatever was
  // stopped or cancelled on the way, unless the task is gone.
  lemma {:induction false} JoinFindsAllFinished(s: State, run: string)
    requires Reachable(s) && Joinable(s, run)
    ensures s.runs[run].task in s.tasks ==> StageFinished(s.tasks[s.runs[run].task].trees, s.runs[run].pc.stage)
  {
    if s.runs[run].task in s.tasks {
      ReachableIsSafe(s);
      JoinedStageIsFinished(s, run);
    }
  }

  ghost predicate StaysInStage(s: State, steps: seq<Step>, run: string)
    requires CanRun(s, steps)
    decreases |steps|
  {
    && run in s.runs && s.runs[run].pc.Forking?
    && (steps != [] ==> !steps[0].Restart? && StaysInStage(Apply(s, steps[0]), steps[1..], run))
  }

  function StageSteps(steps: seq<Step>, run: string): nat {
    if steps == [] then 0 else (if StageStep(steps[0], run) then 1 else 0) + StageSteps(steps[1..], run)
  }

  // However the steps of all goroutines interleave, a stage takes at most
  // Remaining steps before its join.
  lemma {:induction false} StageTerminates(s: State, steps: seq<Step>, run: string)
    requires Inv(s) && CanRun(s, steps) && StaysInStage(s, steps, run)
    ensures run in After(s, steps).runs
    ensures StageSteps(steps, run) + Remaining(After(s, steps).runs[run].pc) <= Remaining(s.runs[run].pc)
    decreases |steps|
  {
    if steps != [] {
      StageWorkFalls(s, steps[0], run);
      StepKeepsInv(s, steps[0]);
      StageTerminates(Apply(s, steps[0]), steps[1..], run);
    }
  }

  // ---- awaiting an answer ----

  lemma {:induction false} AwaitingAfter(s: State, steps: seq<Step>)
    requires Inv(s) && AwaitingOk(s) && CanRun(s, steps) && AllHarmless(s, steps)
    ensures AwaitingOk(After(s, steps))
    decreases |steps|
  {
    if steps != [] {
      StepKeepsAwaiting(s, steps[0]);
      StepKeepsInv(s, steps[0]);
      AwaitingAfter(Apply(s, steps[0]), steps[1..]);
    }
  }

  // From a start of the service: without a harmful step, awaiting means finished.
  lemma {:induction false} FlagInvariant(s0: State, steps: seq<Step>)
    requires Init(s0) && CanRun(s0, steps)
    ensures AllAgree(After(s0, steps))
    ensures AllHarmless(s0, steps) ==> AwaitingFinished(After(s0, steps))
  {
    InvAfter(s0, steps);
    if AllHarmless(s0, steps) {
      AwaitingAfter(s0, steps);
    }
  }

  function WorkPlan(): Plan {
    Plan(false, false, "", 1)
  }

  // What a run started by a harmful visit may go on to do.
  function HarmfulRun(run: string): seq<Step> {
    [Begin(run), InitDone(run), PlanReturned(run, WorkPlan()), Head(run)]
  }

  lemma {:induction false} FirstStep(s: State, step: Step, rest: seq<Step>)
    requires Enabled(s, step) && CanRun(Apply(s, step), rest)
    ensures CanRun(s, [step] + rest) && After(s, [step] + rest) == After(Apply(s, step), rest)
    ensures AllHarmless(s, [step] + rest) <==> Harmless(s, step) && AllHarmless(Apply(s, step), rest)
  {
    assert ([step] + rest)[1..] == rest;
  }

  // A run of an awaiting task that nobody interrupts.
  ghost predicate ActsOn(s: State, task: string, run: string, pc: Pc) {
    && task in s.tasks && s.tasks[task].awaitingUser && !s.tasks[task].stopRequested
    && run in s.runs && s.runs[run] == Run(task, false, pc)
  }

  lemma {:induction false} OneStepOn(s: State, task: string, run: string, step: Step, rest: seq<Step>, pc: Pc, pc1: Pc)
    requires ActsOn(s, task, run, pc) && Enabled(s, step) && Harmless(s, step)
    requires Apply(s, step) == WithPc(s, run, pc1)
    requires CanRun(WithPc(s, run, pc1), rest) && AllHarmless(WithPc(s, run, pc1), rest)
    ensures CanRun(s, [step] + rest) && AllHarmless(s, [step] + rest)
    ensures After(s, [step] + rest) == After(WithPc(s, run, pc1), rest)
  {
    FirstStep(s, step, rest);
  }

  lemma {:induction false} HeadSetsRunning(s: State, task: string, run: string)
    requires ActsOn(s, task, run, AtHead(WorkPlan()))
    ensures CanRun(s, [Head(run)]) && AllHarmless(s, [Head(run)])
    ensures var s1 := After(s, [Head(run)]);
      task in s1.tasks && s1.tasks[task].status.Running? && s1.tasks[task].awaitingUser
  {
    assert CanRun(HeadStep(s, run), []) && AllHarmless(HeadStep(s, run), []);
    FirstStep(s, Head(run), []);
    assert [Head(run)] + [] == [Head(run)];
  }

  lemma {:induction false} HarmfulVisitRuns(s: State, task: string, run: string)
    requires ActsOn(s, task, run, Starting)
    ensures CanRun(s, HarmfulRun(run)) && AllHarmless(s, HarmfulRun(run))
    ensures var s1 := After(s, HarmfulRun(run));
      task in s1.tasks && s1.tasks[task].status.Running? && s1.tasks[task].awaitingUser
  {
    var plan := WorkPlan();
    var s1 := WithPc(s, run, Initialising);
    var s2 := WithPc(s1, run, Planning);
    var s3 := WithPc(s2, run, AtHead(plan));
    HeadSetsRunning(s3, task, run);
    OneStepOn(s2, task, run, PlanReturned(run, plan), [Head(run)], Planning, AtHead(plan));
    OneStepOn(s1, task, run, InitDone(run), [PlanReturned(run, plan)] + [Head(run)], Initialising, Planning);
    OneStepOn(s, task, run, Begin(run), [InitDone(run)] + ([PlanReturned(run, plan)] + [Head(run)]), Starting,
              Initialising);
    assert HarmfulRun(run) == [Begin(run)] + ([InitDone(run)] + ([PlanReturned(run, plan)] + [Head(run)]));
  }

  lemma {:induction false} HarmlessIsSafe(s: State, step: Step)
    requires Inv(s) && AwaitingOk(s) && Enabled(s, step) && Harmless(s, step)
    ensures SafeFrom(Apply(s, step))
  {
    var s1 := Apply(s, step);
    StepKeepsInv(s, step);
    StepKeepsAwaiting(s, step);
    forall steps | CanRun(s1, steps) && AllHarmless(s1, steps)
      ensures AwaitingFinished(After(s1, steps))
    {
      AwaitingAfter(s1, steps);
    }
  }

  lemma {:induction false} HarmfulVisitStarts(s: State, task: string, run: string)
    requires Inv(s) && task in s.tasks && s.tasks[task].awaitingUser && !HasProcesses(s, task)
    ensures ActsOn(WatchdogVisitStep(s, task, run), task, run, Starting)
  {
    var s1 := WatchdogVisitStep(s, task, run);
    assert s1.tasks == s.tasks && s1.runs[run] == Run(task, false, Starting);
  }

  lemma {:induction false} BrokenByRun(s: State, steps: seq<Step>, task: string)
    requires CanRun(s, steps) && AllHarmless(s, steps)
    requires var s1 := After(s, steps);
      task in s1.tasks && s1.tasks[task].status.Running? && s1.tasks[task].awaitingUser
    ensures !SafeFrom(s)
  {
    assert !AwaitingFinished(After(s, steps));
  }

  lemma {:induction false} HarmfulVisitIsUnsafe(s: State, task: string, run: string)
    requires Inv(s) && Enabled(s, WatchdogVisit(task, run)) && !Harmless(s, WatchdogVisit(task, run))
    ensures !SafeFrom(Apply(s, WatchdogVisit(task, run)))
  {
    var s1 := WatchdogVisitStep(s, task, run);
    HarmfulVisitStarts(s, task, run);
    HarmfulVisitRuns(s1, task, run);
    BrokenByRun(s1, HarmfulRun(run), task);
  }

  lemma {:induction false} ResumeKeepsRunning(s: State, resumed: seq<Resumption>, task: string)
    requires task in s.tasks && s.tasks[task].status.Running? && s.tasks[task].awaitingUser
    ensures var s1 := ResumeAll(s, resumed);
      task in s1.tasks && s1.tasks[task].status.Running? && s1.tasks[task].awaitingUser
    decreases |resumed|
  {
    if resumed != [] {
      ResumeKeepsRunning(ResumeOne(s, resumed[0]), resumed[1..], task);
    }
  }

  lemma {:induction false} HarmfulRestartIsUnsafe(s: State, revived: set<string>, resumed: seq<Resumption>)
    requires Enabled(s, Restart(revived, resumed)) && !Harmless(s, Restart(revived, resumed))
    ensures !SafeFrom(RestartStep(s, revived, resumed))
  {
    var t :| t in revived && t in Found(s) && Found(s)[t].awaitingUser;
    ResumeKeepsRunning(Reloaded(s, revived), resumed, t);
    var s1 := RestartStep(s, revived, resumed);
    assert CanRun(s1, []) && AllHarmless(s1, []) && After(s1, []) == s1;
  }

  // A step keeps the invariant, now and for ever after, exactly when it is neither
  // a visit that starts a run on an awaiting task nor a restart that revives one.
  lemma {:induction false} SafeExactlyWhenHarmless(s: State, step: Step)
    requires Inv(s) && AwaitingOk(s) && Enabled(s, step)
    ensures Harmless(s, step) <==> SafeFrom(Apply(s, step))
  {
    if Harmless(s, step) {
      HarmlessIsSafe(s, step);
    } else if step.WatchdogVisit? {
      HarmfulVisitIsUnsafe(s, step.task, step.run);
    } else {
      HarmfulRestartIsUnsafe(s, step.revived, step.resumed);
    }
  }

  // No continuation without a further harmful step breaks the invariant.
  ghost predicate SafeFrom(s: State) {
    forall steps | CanRun(s, steps) && AllHarmless(s, steps) :: AwaitingFinished(After(s, steps))
  }

  lemma {:induction false} RunsOn(s: State, a: seq<Step>, b: seq<Step>)
    requires CanRun(s, a) && CanRun(After(s, a), b)
    ensures CanRun(s, a + b) && After(s, a + b) == After(After(s, a), b)
    decreases |a|
  {
    if a == [] {
      assert a + b == b;
    } else {
      var step, rest := a[0], a[1..];
      assert Enabled(s, step);
      var s1 := Apply(s, step);
      assert a == [step] + rest && a + b == [step] + (rest + b);
      FirstStep(s, step, rest);
      RunsOn(s1, rest, b);
      FirstStep(s, step, rest + b);
    }
  }

  lemma {:induction false} ReachOn(s: State, steps: seq<Step>)
    requires Reachable(s) && CanRun(s, steps)
    ensures Reachable(After(s, steps))
  {
    var s0, before :| Init(s0) && CanRun(s0, before) && After(s0, before) == s;
    RunsOn(s0, before, steps);
  }

  lemma {:induction false} ReachStep(s: State, step: Step)
    requires Reachable(s) && Enabled(s, step)
    ensures Reachable(Apply(s, step))
  {
    FirstStep(s, step, []);
    ReachOn(s, [step] + []);
  }

  function Empty(): State {
    State(map[], map[], map[], map[], map[], {}, {}, 3)
  }

  // A task with one run, while the watchdog holds a list that names the task.
  function Listed(pc: Pc): State {
    State(map["t" := NewTask(1)], map[], map["t" := "r0"], map[RunKey("t", "r0") := RunContext("r0")],
          map["r0" := Run("t", false, pc)], {"t", "r0"}, {"t"}, 3)
  }

  // The same task after it has asked its question.
  function Paused(): State {
    State(map["t" := MarkPaused(NewTask(1))], map[], map["t" := "r0"], map[], map[], {"t", "r0"}, {"t"}, 3)
  }

  lemma {:induction false} CreatedAndListed()
    ensures Reachable(Listed(Starting))
  {
    assert Init(Empty()) && CanRun(Empty(), []) && After(Empty(), []) == Empty();
    ReachStep(Empty(), Create("t", 1, false, "r0"));
    var s1 := CreateStep(Empty(), "t", 1, false, "r0");
    ReachStep(s1, WatchdogList);
    assert s1.(snapshot := RunningTasks(s1)) == Listed(Starting);
  }

  lemma {:induction false} StartsInitialising()
    ensures Reachable(Listed(Initialising))
  {
    CreatedAndListed();
    ReachStep(Listed(Starting), Begin("r0"));
    assert BeginStep(Listed(Starting), "r0") == Listed(Initialising);
  }

  lemma {:induction false} StartsPlanning()
    ensures Reachable(Listed(Planning))
  {
    StartsInitialising();
    ReachStep(Listed(Initialising), InitDone("r0"));
    assert InitDoneStep(Listed(Initialising), "r0") == Listed(Planning);
  }

  function Ask(): Plan {
    Plan(true, true, DEFAULT_QUESTION, 0)
  }

  lemma {:induction false} Asks()
    ensures Reachable(Listed(AtHead(Ask())))
  {
    StartsPlanning();
    ReachStep(Listed(Planning), PlanReturned("r0", Ask()));
    NormalPlanIsConsistent(Ask());
    assert PlanReturnedStep(Listed(Planning), "r0", Ask()) == Listed(AtHead(Ask()));
  }

  lemma {:induction false} Pauses()
    ensures Reachable(Paused())
  {
    Asks();
    ReachStep(Listed(AtHead(Ask())), Head("r0"));
    assert HeadStep(Listed(AtHead(Ask())), "r0") == Paused();
  }

  // So the service can reach a task that is running and awaiting an answer.
  lemma {:induction false} RunningAndAwaitingIsReachable() returns (s: State)
    ensures Reachable(s) && "t" in s.tasks
    ensures s.tasks["t"].status.Running? && s.tasks["t"].awaitingUser
  {
    var s6 := Paused();
    Pauses();
    assert ColonFree("r1");
    ReachStep(s6, WatchdogVisit("t", "r1"));
    var s7 := Apply(s6, WatchdogVisit("t", "r1"));
    assert s7.tasks == s6.tasks && s7.runs["r1"] == Run("t", false, Starting);
    HarmfulVisitRuns(s7, "t", "r1");
    ReachOn(s7, HarmfulRun("r1"));
    s := After(s7, HarmfulRun("r1"));
  }

  // What a restart that revives the task makes of it.
  function RevivedState(): State {
    State(map["t" := MarkPaused(NewTask(1)).(status := Running, gardenerStatus := Running)], map[], map[], map[], map[],
          {"t", "r0"}, {}, 3)
  }

  lemma {:induction false} PausedIsRevivable()
    ensures Reloaded(Paused(), {"t"}) == RevivedState()
    ensures Enabled(Paused(), Restart({"t"}, [Resumption("t", "r1")]))
  {
    var resumed := [Resumption("t", "r1")];
    assert FinishTrees([]) == [] && Found(Paused()) == Paused().tasks;
    assert Reloaded(Paused(), {"t"}).tasks == RevivedState().tasks;
    assert ColonFree("r1");
    assert resumed[0].task == "t";
    assert Resumes(RevivedState(), resumed);
  }

  // The other way there: a restart finds the sentence of an old version in the log
  // of a task that has asked its question.
  lemma {:induction false} RevivedAndAwaitingIsReachable() returns (s: State)
    ensures Reachable(s) && "t" in s.tasks
    ensures s.tasks["t"].status.Running? && s.tasks["t"].awaitingUser
  {
    var resumed := [Resumption("t", "r1")];
    Pauses();
    PausedIsRevivable();
    ReachStep(Paused(), Restart({"t"}, resumed));
    ResumeKeepsRunning(RevivedState(), resumed, "t");
    s := RestartStep(Paused(), {"t"}, resumed);
  }
}
