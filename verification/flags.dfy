/** The four flags of a task.  Status and GardenerStatus always agree, and a
    stopped task is finished and not awaiting an answer.  That an awaiting task
    is finished is kept by every step but two: a watchdog visit based on an
    outdated list may start a run on a task that has since been paused, and a
    restart may revive such a task.  The invariant survives a step exactly when
    the step does neither. */
module Flags {
  import opened ProcessKeys
  import opened Protocol
  import opened Ownership
  import opened LiveKeys

  predicate FlagsAgree(k: Task) {
    && k.status == k.gardenerStatus
    && (k.stopRequested ==> k.status.Finished? && !k.awaitingUser)
  }

  ghost predicate AllAgree(s: State) {
    && (forall t :: t in s.tasks ==> FlagsAgree(s.tasks[t]))
    && (forall t :: t in s.removing ==> FlagsAgree(s.removing[t]))
  }

  ghost predicate AwaitingFinished(s: State) {
    forall t :: t in s.tasks && s.tasks[t].awaitingUser ==> s.tasks[t].status.Finished?
  }

  // No run that could still act belongs to an awaiting task.
  ghost predicate AwaitingQuiet(s: State) {
    forall r :: r in s.runs && s.runs[r].task in s.tasks && s.tasks[s.runs[r].task].awaitingUser ==> s.runs[r].cancelled
  }

  ghost predicate RemovingFinished(s: State) {
    forall t :: t in s.removing && s.removing[t].awaitingUser ==> s.removing[t].status.Finished?
  }

  ghost predicate AwaitingOk(s: State) {
    AwaitingFinished(s) && AwaitingQuiet(s) && RemovingFinished(s)
  }

  // The guards that a visit and a restart lack.
  ghost predicate Harmless(s: State, step: Step) {
    && (step.WatchdogVisit? && step.task in s.tasks && s.tasks[step.task].awaitingUser ==> HasProcesses(s, step.task))
    && (step.Restart? ==> forall t :: t in step.revived && t in Found(s) ==> !Found(s)[t].awaitingUser)
  }

  ghost predicate AllHarmless(s: State, steps: seq<Step>)
    requires CanRun(s, steps)
    decreases |steps|
  {
    steps == [] || (Harmless(s, steps[0]) && AllHarmless(Apply(s, steps[0]), steps[1..]))
  }

  // ---- what a step of a run does to the flags ----

  datatype FlagSet = FlagSet(status: Status, gardener: Status, stop: bool, awaiting: bool, forest: nat)

  function FlagsOf(k: Task): FlagSet {
    FlagSet(k.status, k.gardenerStatus, k.stopRequested, k.awaitingUser, k.forest)
  }

  predicate Finishes(f: FlagSet, f1: FlagSet) {
    f1 == FlagSet(Finished, Finished, f.stop, false, f.forest)
  }

  predicate Pauses(f: FlagSet, f1: FlagSet) {
    f1 == FlagSet(Finished, Finished, false, true, f.forest)
  }

  predicate Opens(f: FlagSet, f1: FlagSet) {
    f1 == FlagSet(Running, Running, f.stop, f.awaiting, f.forest + 1)
  }

  ghost predicate FlagEffect(s: State, run: string, s1: State)
    requires run in s.runs
  {
    var t := s.runs[run].task;
    && s1.tasks.Keys == s.tasks.Keys && s1.removing == s.removing && s.ids <= s1.ids
    && (forall u :: u in s.tasks && u != t ==> s1.tasks[u] == s.tasks[u])
    && (t in s.tasks ==>
        var f, f1 := FlagsOf(s.tasks[t]), FlagsOf(s1.tasks[t]);
        || f1 == f
        || (Active(s, t, run) && (Finishes(f, f1) || Pauses(f, f1)) && run !in s1.runs)
        || (!Interrupted(s, run) && Opens(f, f1)))
  }

  ghost predicate RunsEffect(s: State, run: string, s1: State)
    requires run in s.runs
  {
    && s1.activeRuns == s.activeRuns
    && s1.runs.Keys <= s.runs.Keys
    && forall r :: r in s1.runs ==> s1.runs[r].task == s.runs[r].task && s1.runs[r].cancelled == s.runs[r].cancelled
  }

  lemma {:induction false} QuitEffect(s: State, run: string)
    requires run in s.runs
    ensures FlagEffect(s, run, QuitFinished(s, run)) && FlagEffect(s, run, QuitPaused(s, run))
    ensures RunsEffect(s, run, QuitFinished(s, run)) && RunsEffect(s, run, QuitPaused(s, run))
  {
  }

  lemma {:induction false} TreesEffect(s: State, run: string, trees: seq<Tree>, pc: Pc)
    requires run in s.runs && s.runs[run].task in s.tasks
    ensures var t := s.runs[run].task;
      var s1 := WithPc(WithTask(s, t, s.tasks[t].(trees := trees)), run, pc);
      FlagEffect(s, run, s1) && RunsEffect(s, run, s1)
  {
  }

  // Effects do not depend on the registered keys or on new identifiers.
  lemma {:induction false} EffectIgnoresKeys(s: State, run: string, s1: State, s2: State)
    requires run in s.runs && FlagEffect(s, run, s1) && RunsEffect(s, run, s1)
    requires s2.tasks == s1.tasks && s2.removing == s1.removing && s.ids <= s2.ids
    requires s2.runs == s1.runs && s2.activeRuns == s1.activeRuns
    ensures FlagEffect(s, run, s2) && RunsEffect(s, run, s2)
  {
  }

  lemma {:induction false} PcEffect(s: State, run: string, pc: Pc)
    requires run in s.runs
    ensures FlagEffect(s, run, WithPc(s, run, pc)) && RunsEffect(s, run, WithPc(s, run, pc))
  {
  }

  lemma {:induction false} UpdateTreeEffect(s: State, run: string, tree: string, status: Status, pc: Pc)
    requires run in s.runs
    ensures var s1 := WithPc(UpdateTree(s, s.runs[run].task, tree, status), run, pc);
      FlagEffect(s, run, s1) && RunsEffect(s, run, s1)
  {
    PcEffect(s, run, pc);
    var t := s.runs[run].task;
    if t in s.tasks {
      TreesEffect(s, run, SetTreeStatus(s.tasks[t].trees, tree, status), pc);
    }
  }

  lemma {:induction false} AddTreeEffect(s: State, run: string, tree: Tree, pc: Pc)
    requires run in s.runs
    ensures var s1 := WithPc(AddTree(s, s.runs[run].task, tree), run, pc);
      FlagEffect(s, run, s1) && RunsEffect(s, run, s1)
  {
    PcEffect(s, run, pc);
    var t := s.runs[run].task;
    if t in s.tasks {
      TreesEffect(s, run, s.tasks[t].trees + [tree], pc);
    }
  }

  lemma {:induction false} SlotEffect(s: State, step: Step)
    requires Enabled(s, step) && (step.Acquire? || step.Release?)
    ensures FlagEffect(s, step.run, Apply(s, step)) && RunsEffect(s, step.run, Apply(s, step))
  {
    PcEffect(s, step.run, Apply(s, step).runs[step.run].pc);
  }

  lemma {:induction false} AbortEffect(s: State, run: string, w: nat)
    requires AtWorker(s, run, w, Waiting)
    ensures FlagEffect(s, run, AbortStep(s, run, w)) && RunsEffect(s, run, AbortStep(s, run, w))
  {
    UpdateTreeEffect(s, run, s.runs[run].pc.workers[w].tree, Finished, AbortStep(s, run, w).runs[run].pc);
  }

  lemma {:induction false} StartTreeEffect(s: State, run: string, w: nat)
    requires AtWorker(s, run, w, Holding)
    ensures FlagEffect(s, run, StartTreeStep(s, run, w)) && RunsEffect(s, run, StartTreeStep(s, run, w))
  {
    var r, s1 := s.runs[run], StartTreeStep(s, run, w);
    var tree, pc := r.pc.workers[w].tree, s1.runs[run].pc;
    if r.task in s.tasks && HasTree(s.tasks[r.task].trees, tree) {
      UpdateTreeEffect(s, run, tree, Running, pc);
      EffectIgnoresKeys(s, run, WithPc(UpdateTree(s, r.task, tree, Running), run, pc), s1);
    } else {
      PcEffect(s, run, pc);
    }
  }

  lemma {:induction false} TreeReturnedEffect(s: State, run: string, w: nat)
    requires AtWorker(s, run, w, Executing)
    ensures FlagEffect(s, run, TreeReturnedStep(s, run, w)) && RunsEffect(s, run, TreeReturnedStep(s, run, w))
  {
    var r, s1 := s.runs[run], TreeReturnedStep(s, run, w);
    var tree, pc := r.pc.workers[w].tree, s1.runs[run].pc;
    UpdateTreeEffect(s, run, tree, Finished, pc);
    EffectIgnoresKeys(s, run, WithPc(UpdateTree(s, r.task, tree, Finished), run, pc), s1);
  }

  lemma {:induction false} WorkerEffect(s: State, step: Step)
    requires Enabled(s, step)
    requires step.Acquire? || step.Abort? || step.StartTree? || step.TreeReturned? || step.Release?
    ensures FlagEffect(s, step.run, Apply(s, step)) && RunsEffect(s, step.run, Apply(s, step))
  {
    if step.Abort? {
      AbortEffect(s, step.run, step.worker);
    } else if step.StartTree? {
      StartTreeEffect(s, step.run, step.worker);
    } else if step.TreeReturned? {
      TreeReturnedEffect(s, step.run, step.worker);
    } else {
      SlotEffect(s, step);
    }
  }

  lemma {:induction false} EnterStageEffect(s: State, run: string, planned: nat)
    requires run in s.runs && s.runs[run].task in s.tasks && !Interrupted(s, run)
    ensures FlagEffect(s, run, EnterStage(s, run, planned)) && RunsEffect(s, run, EnterStage(s, run, planned))
  {
  }

  ghost predicate Effect(s: State, run: string, s1: State)
    requires run in s.runs
  {
    FlagEffect(s, run, s1) && RunsEffect(s, run, s1)
  }

  lemma {:induction false} HeadEffect(s: State, run: string)
    requires run in s.runs && s.runs[run].pc.AtHead?
    ensures Effect(s, run, HeadStep(s, run))
  {
    QuitEffect(s, run);
    if s.runs[run].task in s.tasks && !Interrupted(s, run) {
      EnterStageEffect(s, run, s.runs[run].pc.plan.trees);
    }
  }

  lemma {:induction false} ForkEffect(s: State, run: string, tree: string)
    requires run in s.runs && s.runs[run].pc.Forking? && s.runs[run].pc.rest > 0
    ensures Effect(s, run, ForkStep(s, run, tree))
  {
    var r := s.runs[run];
    PcEffect(s, run, r.pc.(rest := 0));
    var t := Tree(tree, r.pc.stage, false, Running, run);
    var pc := r.pc.(rest := r.pc.rest - 1, workers := r.pc.workers + [Worker(tree, Waiting)]);
    AddTreeEffect(s, run, t, pc);
    EffectIgnoresKeys(s, run, WithPc(AddTree(s, r.task, t), run, pc), SpawnTree(s, run, tree));
  }

  lemma {:induction false} JoinEffect(s: State, run: string, tree: string)
    requires run in s.runs && s.runs[run].pc.Forking?
    ensures Effect(s, run, JoinStep(s, run, tree))
  {
    var r := s.runs[run];
    QuitEffect(s, run);
    PcEffect(s, run, Deciding(r.pc.stage));
    var t := Tree(tree, r.pc.stage, true, Running, run);
    AddTreeEffect(s, run, t, Validating(r.pc.stage, tree));
    EffectIgnoresKeys(s, run, WithPc(AddTree(s, r.task, t), run, Validating(r.pc.stage, tree)), Validate(s, run, tree));
  }

  lemma {:induction false} ValidatedEffect(s: State, run: string)
    requires run in s.runs && s.runs[run].pc.Validating?
    ensures FlagEffect(s, run, ValidatedStep(s, run)) && RunsEffect(s, run, ValidatedStep(s, run))
  {
    var r := s.runs[run];
    UpdateTreeEffect(s, run, r.pc.tree, Finished, r.pc);
    var s1 := UpdateTree(s, r.task, r.pc.tree, Finished);
    assert s1.runs == s1.runs[run := r];
    var s2 := s1.(cancels := s1.cancels - {TreeKey(r.task, r.pc.tree)});
    assert Interrupted(s2, run) == Interrupted(s, run);
    QuitEffect(s2, run);
    PcEffect(s2, run, Deciding(r.pc.stage));
  }

  lemma {:induction false} PlanningEffect(s: State, run: string)
    requires run in s.runs
    ensures Effect(s, run, BeginStep(s, run)) && Effect(s, run, InitDoneStep(s, run))
  {
    QuitEffect(s, run);
    PcEffect(s, run, Initialising);
    PcEffect(s, run, Planning);
    assert Effect(s, run, ExitRun(s, run));
  }

  lemma {:induction false} PlannedEffect(s: State, run: string, plan: Plan)
    requires run in s.runs
    ensures Effect(s, run, PlanReturnedStep(s, run, plan)) && Effect(s, run, DecidedStep(s, run, plan))
  {
    QuitEffect(s, run);
    PcEffect(s, run, AtHead(NormalizePlan(plan)));
  }

  lemma {:induction false} ControlEffect(s: State, run: string, plan: Plan)
    requires run in s.runs
    ensures Effect(s, run, BeginStep(s, run)) && Effect(s, run, InitDoneStep(s, run))
    ensures Effect(s, run, PlanReturnedStep(s, run, plan)) && Effect(s, run, DecidedStep(s, run, plan))
  {
    PlanningEffect(s, run);
    PlannedEffect(s, run, plan);
  }

  lemma {:induction false} PanicEffect(s: State, run: string)
    requires run in s.runs
    ensures Effect(s, run, PanicStep(s, run))
  {
    var r := s.runs[run];
    QuitEffect(s, run);
    if r.pc.Validating? {
      var s1 := s.(cancels := s.cancels - {TreeKey(r.task, r.pc.tree)});
      QuitEffect(s1, run);
      assert Effect(s1, run, PanicStep(s, run));
    }
  }

  lemma {:induction false} RunStepEffect(s: State, step: Step)
    requires Enabled(s, step) && IsRunStep(step)
    ensures Effect(s, step.run, Apply(s, step))
  {
    match step {
      case Head(run) => HeadEffect(s, run);
      case Fork(run, tree) => ForkEffect(s, run, tree);
      case Join(run, tree) => JoinEffect(s, run, tree);
      case Validated(run) => ValidatedEffect(s, run);
      case Panic(run) => PanicEffect(s, run);
      case Begin(run) => ControlEffect(s, run, Plan(true, false, "", 0));
      case InitDone(run) => ControlEffect(s, run, Plan(true, false, "", 0));
      case PlanReturned(run, plan) => ControlEffect(s, run, plan);
      case Decided(run, plan) => ControlEffect(s, run, plan);
      case _ => WorkerEffect(s, step);
    }
  }

  // ---- only the owner changes the flags ----

  lemma {:induction false} EffectIsByOwner(s: State, run: string, s1: State, task: string)
    requires Owned(s) && run in s.runs && FlagEffect(s, run, s1)
    ensures task in s.tasks && FlagsOf(s1.tasks[task]) != FlagsOf(s.tasks[task]) ==>
      Active(s, task, run) && s.runs[run].task == task
  {
    if !Interrupted(s, run) {
      UninterruptedIsActive(s, run);
    }
  }

  // A run that finishes, pauses or advances a task is the one in activeRuns.
  lemma {:induction false} OnlyTheOwnerActs(s: State, step: Step, task: string)
    requires Owned(s) && Enabled(s, step) && IsRunStep(step)
    ensures Apply(s, step).tasks.Keys == s.tasks.Keys
    ensures task in s.tasks && FlagsOf(Apply(s, step).tasks[task]) != FlagsOf(s.tasks[task]) ==>
      Active(s, task, step.run) && s.runs[step.run].task == task
  {
    RunStepEffect(s, step);
    EffectIsByOwner(s, step.run, Apply(s, step), task);
  }

  // ---- the part that always holds ----

  lemma {:induction false} EffectKeepsAgreement(s: State, run: string, s1: State)
    requires AllAgree(s) && run in s.runs && Effect(s, run, s1)
    ensures AllAgree(s1)
  {
  }

  lemma {:induction false} ResumeKeepsAgreement(s: State, resumed: seq<Resumption>)
    requires AllAgree(s)
    requires forall i :: 0 <= i < |resumed| ==> resumed[i].task in s.tasks && !s.tasks[resumed[i].task].stopRequested
    ensures AllAgree(ResumeAll(s, resumed))
    decreases |resumed|
  {
    if resumed != [] {
      ResumeKeepsAgreement(ResumeOne(s, resumed[0]), resumed[1..]);
    }
  }

  // Every task is an old one or agrees on its own.
  lemma {:induction false} ChangeKeepsAgreement(s: State, s1: State)
    requires AllAgree(s)
    requires forall t :: t in s1.tasks ==> FlagsAgree(s1.tasks[t]) || (t in s.tasks && s1.tasks[t] == s.tasks[t])
    requires forall t :: t in s1.removing ==>
      (t in s.removing && s1.removing[t] == s.removing[t]) || (t in s.tasks && s1.removing[t] == s.tasks[t])
    ensures AllAgree(s1)
  {
  }

  lemma {:induction false} EditKeepsAgreement(s: State, s1: State, task: string, k: Task)
    requires AllAgree(s) && FlagsAgree(k)
    requires s1.tasks == s.tasks[task := k] && s1.removing == s.removing
    ensures AllAgree(s1)
  {
  }

  lemma {:induction false} UserKeepsAgreement(s: State, step: Step)
    requires AllAgree(s) && Enabled(s, step) && !IsRunStep(step) && !step.Restart?
    ensures AllAgree(Apply(s, step))
  {
    if step.Create? {
      var k := NewTask(step.maxTrees);
      assert s.tasks[step.task := k][step.task := MarkPaused(k)] == s.tasks[step.task := MarkPaused(k)];
      EditKeepsAgreement(s, Apply(s, step), step.task, if step.vague then MarkPaused(k) else k);
    } else if step.Send? {
      EditKeepsAgreement(s, SendStep(s, step.task, step.run), step.task, MarkRunning(s.tasks[step.task]));
    } else if step.StopMark? {
      if step.task in s.tasks {
        EditKeepsAgreement(s, StopMarkStep(s, step.task), step.task, MarkStopped(s.tasks[step.task]));
      }
    } else {
      ChangeKeepsAgreement(s, Apply(s, step));
    }
  }

  lemma {:induction false} StepKeepsAgreement(s: State, step: Step)
    requires AllAgree(s) && Enabled(s, step)
    ensures AllAgree(Apply(s, step))
  {
    if IsRunStep(step) {
      RunStepEffect(s, step);
      EffectKeepsAgreement(s, step.run, Apply(s, step));
    } else if step.Restart? {
      ResumeKeepsAgreement(Reloaded(s, step.revived), step.resumed);
    } else {
      UserKeepsAgreement(s, step);
    }
  }

  // ---- awaiting an answer ----

  lemma {:induction false} ResumeKeepsAwaiting(s: State, resumed: seq<Resumption>)
    requires AwaitingOk(s)
    requires forall i :: 0 <= i < |resumed| ==> resumed[i].task in s.tasks && !s.tasks[resumed[i].task].awaitingUser
    ensures AwaitingOk(ResumeAll(s, resumed))
    decreases |resumed|
  {
    if resumed != [] {
      ResumeKeepsAwaiting(ResumeOne(s, resumed[0]), resumed[1..]);
    }
  }

  lemma {:induction false} RestartKeepsAwaiting(s: State, revived: set<string>, resumed: seq<Resumption>)
    requires AwaitingOk(s) && Harmless(s, Restart(revived, resumed)) && Resumes(Reloaded(s, revived), resumed)
    ensures AwaitingOk(RestartStep(s, revived, resumed))
  {
    ResumeKeepsAwaiting(Reloaded(s, revived), resumed);
  }

  lemma {:induction false} EffectKeepsAwaiting(s: State, run: string, s1: State)
    requires Owned(s) && AwaitingOk(s) && run in s.runs && Effect(s, run, s1)
    ensures AwaitingOk(s1)
  {
    forall r | r in s1.runs && s1.runs[r].task in s1.tasks && s1.tasks[s1.runs[r].task].awaitingUser
      ensures s1.runs[r].cancelled
    {
      assert Active(s, s.runs[r].task, r) || s.runs[r].cancelled;
    }
  }

  lemma {:induction false} StartKeepsAwaiting(s: State, task: string, run: string)
    requires AwaitingOk(s) && (task in s.tasks ==> !s.tasks[task].awaitingUser)
    ensures AwaitingOk(StartRun(s, task, run))
  {
  }

  lemma {:induction false} CreateKeepsAwaiting(s: State, task: string, maxTrees: nat, vague: bool, run: string)
    requires Owned(s) && AwaitingOk(s) && Fresh(s, task)
    ensures AwaitingOk(CreateStep(s, task, maxTrees, vague, run))
  {
    var s1 := WithTask(s, task, NewTask(maxTrees)).(ids := s.ids + {task});
    assert forall r :: r in s.runs ==> s.runs[r].task != task;
    assert AwaitingOk(s1);
    if !vague { StartKeepsAwaiting(s1, task, run); }
  }

  lemma {:induction false} UserKeepsAwaiting(s: State, step: Step)
    requires Owned(s) && AwaitingOk(s) && Enabled(s, step) && Harmless(s, step)
    requires step.Create? || step.Send? || step.WatchdogVisit?
    ensures AwaitingOk(Apply(s, step))
  {
    match step {
      case Create(task, maxTrees, vague, run) => CreateKeepsAwaiting(s, task, maxTrees, vague, run);
      case Send(task, run) =>
        StartKeepsAwaiting(WithTask(s, task, MarkRunning(s.tasks[task])), task, run);
      case WatchdogVisit(task, run) =>
        if !HasProcesses(s, task) { StartKeepsAwaiting(s.(snapshot := s.snapshot - {task}), task, run); }
    }
  }

  lemma {:induction false} MarkKeepsAwaiting(s: State, step: Step)
    requires AwaitingOk(s) && Enabled(s, step) && !IsRunStep(step)
    requires !step.Create? && !step.Send? && !step.WatchdogVisit? && !step.Restart?
    ensures AwaitingOk(Apply(s, step))
  {
  }

  lemma {:induction false} StepKeepsAwaiting(s: State, step: Step)
    requires Owned(s) && AwaitingOk(s) && Enabled(s, step) && Harmless(s, step)
    ensures AwaitingOk(Apply(s, step))
  {
    if IsRunStep(step) {
      RunStepEffect(s, step);
      EffectKeepsAwaiting(s, step.run, Apply(s, step));
    } else if step.Restart? {
      RestartKeepsAwaiting(s, step.revived, step.resumed);
    } else if step.Create? || step.Send? || step.WatchdogVisit? {
      UserKeepsAwaiting(s, step);
    } else {
      MarkKeepsAwaiting(s, step);
    }
  }
}
