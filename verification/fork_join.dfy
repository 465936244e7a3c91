/** The semaphore and the wait group of runTreeForest.  The occupancy of the
    semaphore is the number of workers holding a slot, never more than
    maxConcurrent; the stage can always move; and it moves finitely often. */
module ForkJoin {
  import opened ProcessKeys
  import opened Protocol

  predicate HoldsSlot(pc: WorkerPc) {
    pc.Holding? || pc.Executing? || pc.Returned?
  }

  function Holders(workers: seq<Worker>): nat {
    if workers == [] then 0
    else Holders(workers[..|workers| - 1]) + (if HoldsSlot(workers[|workers| - 1].pc) then 1 else 0)
  }

  function Weight(pc: WorkerPc): nat {
    match pc
    case Waiting => 4
    case Holding => 3
    case Executing => 2
    case Returned => 1
    case Done => 0
  }

  function Weights(workers: seq<Worker>): nat {
    if workers == [] then 0 else Weights(workers[..|workers| - 1]) + Weight(workers[|workers| - 1].pc)
  }

  // How many more steps the stage of a run can take; 0 outside fork and join.
  function Remaining(pc: Pc): nat {
    if pc.Forking? then 1 + 5 * pc.rest + Weights(pc.workers) else 0
  }

  ghost predicate SlotsOk(s: State) {
    forall r :: r in s.runs && s.runs[r].pc.Forking? ==>
      s.runs[r].pc.slots == Holders(s.runs[r].pc.workers) <= s.maxConcurrent
  }

  predicate StageStep(step: Step, run: string) {
    && (step.Fork? || step.Acquire? || step.Abort? || step.StartTree? || step.TreeReturned? || step.Release? ||
        step.Join?)
    && step.run == run
  }

  lemma {:induction false} MoveCounts(workers: seq<Worker>, w: nat, to: WorkerPc)
    requires w < |workers|
    ensures var moved := workers[w := workers[w].(pc := to)];
      && Holders(moved) + (if HoldsSlot(workers[w].pc) then 1 else 0) ==
         Holders(workers) + (if HoldsSlot(to) then 1 else 0)
      && Weights(moved) + Weight(workers[w].pc) == Weights(workers) + Weight(to)
  {
    var moved := workers[w := workers[w].(pc := to)];
    var n := |workers| - 1;
    if w == n {
      assert moved[..n] == workers[..n];
    } else {
      assert moved[..n] == workers[..n][w := workers[w].(pc := to)];
      MoveCounts(workers[..n], w, to);
    }
  }

  lemma {:induction false} SpawnCounts(workers: seq<Worker>, tree: string)
    ensures Holders(workers + [Worker(tree, Waiting)]) == Holders(workers)
    ensures Weights(workers + [Worker(tree, Waiting)]) == Weights(workers) + 4
  {
    assert (workers + [Worker(tree, Waiting)])[..|workers|] == workers;
  }

  lemma {:induction false} SomeHolder(workers: seq<Worker>) returns (w: nat)
    requires Holders(workers) > 0
    ensures w < |workers| && HoldsSlot(workers[w].pc)
  {
    var n := |workers| - 1;
    if HoldsSlot(workers[n].pc) {
      w := n;
    } else {
      w := SomeHolder(workers[..n]);
    }
  }

  // ---- what one step of a stage does to it ----

  // The state of the stage after its own step, when the run stays in it.
  ghost predicate StageMoved(s: State, run: string, s1: State)
    requires run in s.runs
  {
    && s1.maxConcurrent == s.maxConcurrent
    && (forall r :: r in s1.runs && r != run ==> r in s.runs && s1.runs[r].pc == s.runs[r].pc)
    && (run in s1.runs ==>
        && Remaining(s1.runs[run].pc) < Remaining(s.runs[run].pc)
        && (s1.runs[run].pc.Forking? ==> s1.runs[run].pc.slots == Holders(s1.runs[run].pc.workers) <= s.maxConcurrent))
  }

  lemma {:induction false} AcquireMoves(s: State, run: string, w: nat)
    requires SlotsOk(s) && AtWorker(s, run, w, Waiting) && s.runs[run].pc.slots < s.maxConcurrent
    ensures StageMoved(s, run, AcquireStep(s, run, w))
  {
    MoveCounts(s.runs[run].pc.workers, w, Holding);
  }

  lemma {:induction false} AbortMoves(s: State, run: string, w: nat)
    requires SlotsOk(s) && AtWorker(s, run, w, Waiting)
    ensures StageMoved(s, run, AbortStep(s, run, w))
  {
    MoveCounts(s.runs[run].pc.workers, w, Done);
  }

  lemma {:induction false} ReleaseMoves(s: State, run: string, w: nat)
    requires SlotsOk(s) && AtWorker(s, run, w, Returned)
    ensures StageMoved(s, run, ReleaseStep(s, run, w))
  {
    MoveCounts(s.runs[run].pc.workers, w, Done);
  }

  lemma {:induction false} StartTreeMoves(s: State, run: string, w: nat)
    requires SlotsOk(s) && AtWorker(s, run, w, Holding)
    ensures StageMoved(s, run, StartTreeStep(s, run, w))
  {
    MoveCounts(s.runs[run].pc.workers, w, Executing);
    MoveCounts(s.runs[run].pc.workers, w, Returned);
  }

  lemma {:induction false} TreeReturnedMoves(s: State, run: string, w: nat)
    requires SlotsOk(s) && AtWorker(s, run, w, Executing)
    ensures StageMoved(s, run, TreeReturnedStep(s, run, w))
  {
    MoveCounts(s.runs[run].pc.workers, w, Returned);
  }

  lemma {:induction false} ForkMoves(s: State, run: string, tree: string)
    requires SlotsOk(s) && run in s.runs && s.runs[run].pc.Forking? && s.runs[run].pc.rest > 0
    ensures StageMoved(s, run, ForkStep(s, run, tree))
  {
    SpawnCounts(s.runs[run].pc.workers, tree);
  }

  lemma {:induction false} JoinMoves(s: State, run: string, tree: string)
    requires SlotsOk(s) && run in s.runs && s.runs[run].pc.Forking?
    ensures StageMoved(s, run, JoinStep(s, run, tree))
  {
  }

  lemma {:induction false} StageStepMoves(s: State, step: Step, run: string)
    requires SlotsOk(s) && Enabled(s, step) && StageStep(step, run)
    ensures StageMoved(s, run, Apply(s, step))
  {
    if step.Fork? {
      ForkMoves(s, run, step.tree);
    } else if step.Join? {
      JoinMoves(s, run, step.tree);
    } else if step.StartTree? {
      StartTreeMoves(s, run, step.worker);
    } else if step.TreeReturned? {
      TreeReturnedMoves(s, run, step.worker);
    } else if step.Acquire? {
      AcquireMoves(s, run, step.worker);
    } else if step.Abort? {
      AbortMoves(s, run, step.worker);
    } else {
      ReleaseMoves(s, run, step.worker);
    }
  }

  // ---- other steps leave a stage alone ----

  // A run that is in a stage afterwards was in the same one before, or has
  // just opened it.
  ghost predicate StagesUntouched(s: State, s1: State) {
    && s1.maxConcurrent == s.maxConcurrent
    && forall r :: r in s1.runs && s1.runs[r].pc.Forking? ==>
       (r in s.runs && s1.runs[r].pc == s.runs[r].pc) || (s1.runs[r].pc.workers == [] && s1.runs[r].pc.slots == 0)
  }

  ghost predicate StagesStay(s: State, s1: State) {
    forall r :: r in s.runs && r in s1.runs && s.runs[r].pc.Forking? ==> s1.runs[r].pc == s.runs[r].pc
  }

  lemma {:induction false} ResumeLeavesStages(s: State, resumed: seq<Resumption>)
    requires forall r :: r in s.runs ==> !s.runs[r].pc.Forking?
    ensures var s1 := ResumeAll(s, resumed);
      s1.maxConcurrent == s.maxConcurrent && forall r :: r in s1.runs ==> !s1.runs[r].pc.Forking?
    decreases |resumed|
  {
    if resumed != [] {
      ResumeLeavesStages(ResumeOne(s, resumed[0]), resumed[1..]);
    }
  }

  ghost predicate Leaves(s: State, s1: State) {
    StagesUntouched(s, s1) && StagesStay(s, s1)
  }

  lemma {:induction false} SameRunsLeaveStages(s: State, s1: State)
    requires s1.runs == s.runs && s1.maxConcurrent == s.maxConcurrent
    ensures Leaves(s, s1)
  {
  }

  lemma {:induction false} StartLeavesStages(s: State, s1: State, task: string, run: string)
    requires s1.runs == s.runs && s1.maxConcurrent == s.maxConcurrent && run !in s.runs
    ensures Leaves(s, StartRun(s1, task, run))
  {
  }

  lemma {:induction false} CancelLeavesStages(s: State, task: string)
    ensures Leaves(s, CancelTask(s, task))
  {
  }

  lemma {:induction false} UserStepLeavesStages(s: State, step: Step)
    requires Enabled(s, step) && !IsRunStep(step) && !step.Restart? && s.runs.Keys <= s.ids
    ensures Leaves(s, Apply(s, step))
  {
    if step.Create? {
      var s1 := WithTask(s, step.task, NewTask(step.maxTrees)).(ids := s.ids + {step.task});
      SameRunsLeaveStages(s, PauseTask(s1, step.task));
      StartLeavesStages(s, s1, step.task, step.run);
    } else if step.Send? {
      StartLeavesStages(s, WithTask(s, step.task, MarkRunning(s.tasks[step.task])), step.task, step.run);
    } else if step.WatchdogVisit? {
      var s1 := s.(snapshot := s.snapshot - {step.task});
      SameRunsLeaveStages(s, s1);
      StartLeavesStages(s, s1, step.task, step.run);
    } else if step.Cancel? {
      CancelLeavesStages(s, step.task);
    } else {
      SameRunsLeaveStages(s, Apply(s, step));
    }
  }

  lemma {:induction false} QuitLeavesStages(s: State, run: string, pc: Pc)
    requires run in s.runs && !s.runs[run].pc.Forking?
    ensures Leaves(s, QuitFinished(s, run)) && Leaves(s, QuitPaused(s, run)) && Leaves(s, ExitRun(s, run))
    ensures !pc.Forking? ==> Leaves(s, WithPc(s, run, pc))
  {
  }

  lemma {:induction false} PlanStepsLeaveStages(s: State, run: string, plan: Plan)
    requires run in s.runs && !s.runs[run].pc.Forking?
    ensures Leaves(s, BeginStep(s, run)) && Leaves(s, InitDoneStep(s, run))
    ensures Leaves(s, PlanReturnedStep(s, run, plan)) && Leaves(s, DecidedStep(s, run, plan))
  {
    QuitLeavesStages(s, run, Initialising);
    QuitLeavesStages(s, run, Planning);
    QuitLeavesStages(s, run, AtHead(NormalizePlan(plan)));
  }

  lemma {:induction false} EnterStageLeavesStages(s: State, run: string)
    requires run in s.runs && s.runs[run].pc.AtHead?
    ensures Leaves(s, HeadStep(s, run))
  {
    QuitLeavesStages(s, run, Starting);
  }

  lemma {:induction false} PanicLeavesStages(s: State, run: string)
    requires run in s.runs && !s.runs[run].pc.Forking?
    ensures Leaves(s, PanicStep(s, run))
  {
    QuitLeavesStages(s, run, Starting);
    if s.runs[run].pc.Validating? {
      QuitLeavesStages(s.(cancels := s.cancels - {TreeKey(s.runs[run].task, s.runs[run].pc.tree)}), run, Starting);
    }
  }

  lemma {:induction false} ValidationLeavesStages(s: State, run: string)
    requires run in s.runs && s.runs[run].pc.Validating?
    ensures Leaves(s, ValidatedStep(s, run))
  {
    var r := s.runs[run];
    var s1 := UpdateTree(s, r.task, r.pc.tree, Finished);
    var s2 := s1.(cancels := s1.cancels - {TreeKey(r.task, r.pc.tree)});
    assert s2.runs == s.runs;
    QuitLeavesStages(s2, run, Deciding(r.pc.stage));
  }

  lemma {:induction false} ControlStepLeavesStages(s: State, step: Step)
    requires Enabled(s, step) && IsRunStep(step) && !StageStep(step, step.run)
    ensures Leaves(s, Apply(s, step))
  {
    if step.PlanReturned? || step.Decided? {
      PlanStepsLeaveStages(s, step.run, step.plan);
    } else if step.Begin? || step.InitDone? {
      PlanStepsLeaveStages(s, step.run, Plan(true, false, "", 0));
    } else if step.Head? {
      EnterStageLeavesStages(s, step.run);
    } else if step.Validated? {
      ValidationLeavesStages(s, step.run);
    } else {
      PanicLeavesStages(s, step.run);
    }
  }

  lemma {:induction false} OtherStepLeavesStages(s: State, step: Step)
    requires Enabled(s, step) && s.runs.Keys <= s.ids
    requires IsRunStep(step) ==> !StageStep(step, step.run)
    ensures StagesUntouched(s, Apply(s, step))
    ensures !step.Restart? ==> StagesStay(s, Apply(s, step))
  {
    if step.Restart? {
      ResumeLeavesStages(Reloaded(s, step.revived), step.resumed);
    } else if IsRunStep(step) {
      ControlStepLeavesStages(s, step);
    } else {
      UserStepLeavesStages(s, step);
    }
  }

  // ---- the theorems ----

  // Occupancy equals the number of holders and never exceeds the limit.
  lemma {:induction false} StepKeepsSlots(s: State, step: Step)
    requires SlotsOk(s) && Enabled(s, step) && s.runs.Keys <= s.ids
    ensures SlotsOk(Apply(s, step))
  {
    if IsRunStep(step) && StageStep(step, step.run) {
      StageStepMoves(s, step, step.run);
    } else {
      OtherStepLeavesStages(s, step);
    }
  }

  // Until the join some step of the stage is enabled, whatever was cancelled
  // or stopped meanwhile.
  lemma {:induction false} StageCanMove(s: State, run: string, id: string) returns (step: Step)
    requires SlotsOk(s) && s.maxConcurrent > 0 && Fresh(s, id)
    requires run in s.runs && s.runs[run].pc.Forking?
    ensures Enabled(s, step) && StageStep(step, run)
  {
    var pc := s.runs[run].pc;
    if pc.rest > 0 {
      step := Fork(run, id);
    } else if AllDone(pc.workers) {
      step := Join(run, id);
    } else {
      var w: nat :| w < |pc.workers| && !pc.workers[w].pc.Done?;
      if pc.workers[w].pc.Waiting? {
        if pc.slots < s.maxConcurrent {
          return Acquire(run, w);
        }
        w := SomeHolder(pc.workers);
      }
      match pc.workers[w].pc {
        case Holding => step := StartTree(run, w);
        case Executing => step := TreeReturned(run, w);
        case Returned => step := Release(run, w);
      }
    }
  }

  // The work of a stage over one step: it falls if the step is one of the stage.
  ghost predicate WorkMoves(s: State, step: Step, run: string, s1: State)
    requires run in s.runs && run in s1.runs
  {
    if StageStep(step, run) then Remaining(s1.runs[run].pc) < Remaining(s.runs[run].pc)
    else s1.runs[run].pc == s.runs[run].pc
  }

  // The remaining work falls with every step of the stage and rises with none.
  lemma {:induction false} StageWorkFalls(s: State, step: Step, run: string)
    requires SlotsOk(s) && Enabled(s, step) && s.runs.Keys <= s.ids
    requires run in s.runs && s.runs[run].pc.Forking? && run in Apply(s, step).runs && !step.Restart?
    ensures WorkMoves(s, step, run, Apply(s, step))
  {
    if IsRunStep(step) && StageStep(step, step.run) {
      StageStepMoves(s, step, step.run);
    } else {
      OtherStepLeavesStages(s, step);
    }
  }
}
