/** The orchestrator as an object: its maps are fields and its methods change
    them in place.  In a valid object the fields form a state that the protocol
    can reach, so every theorem about reachable states applies.  Each handler
    takes one step of the protocol and leaves the object valid; the methods it
    shares with others are proved against the building blocks of the steps. */
module OrchestratorObject {
  import opened ProcessKeys
  import opened Protocol
  import opened Ownership
  import opened Stages
  import opened LiveKeys
  import opened ForkJoin
  import opened Safety
  import opened Text

  // UpdateTree's loop stops at the first match.
  lemma {:induction false} SetStatusAtFirst(trees: seq<Tree>, i: nat, tree: string, status: Status)
    requires i <= |trees| && (forall j :: 0 <= j < i ==> trees[j].id != tree) && (i < |trees| ==> trees[i].id == tree)
    ensures SetTreeStatus(trees, tree, status) == if i < |trees| then trees[i := trees[i].(status := status)] else trees
    decreases i
  {
    if trees != [] {
      assert trees == [trees[0]] + trees[1..];
      if i > 0 {
        SetStatusAtFirst(trees[1..], i - 1, tree, status);
      }
    }
  }

  // A run after the keys of `done` have been visited.
  ghost function AfterCancel(cancels: map<string, Handle>, run: Run, done: set<string>, task: string, r: string): Run
    requires done <= cancels.Keys
  {
    if exists key :: key in done && Covers(task, key) && cancels[key] == RunContext(r)
    then run.(cancelled := true) else run
  }

  lemma {:induction false} AllVisited(s: State, runs: map<string, Run>, task: string)
    requires runs.Keys == s.runs.Keys
    requires forall r :: r in runs ==> runs[r] == AfterCancel(s.cancels, s.runs[r], s.cancels.Keys, task, r)
    ensures s.(runs := runs) == CancelTask(s, task)
  {
    var cancelled := CancelTask(s, task).runs;
    forall r | r in runs
      ensures runs[r] == cancelled[r]
    {
      assert r in CancelledBy(s, task) <==>
        exists key :: key in s.cancels && Covers(task, key) && s.cancels[key] == RunContext(r);
    }
    assert runs == cancelled;
  }

  class Orchestrator {
    var tasks: map<string, Task>
    var removing: map<string, Task>
    var activeRuns: map<string, string>
    var cancels: map<string, Handle>
    var runs: map<string, Run>
    var ids: set<string>
    var snapshot: set<string>
    const maxConcurrent: nat

    ghost function Now(): State
      reads this
    {
      State(tasks, removing, activeRuns, cancels, runs, ids, snapshot, maxConcurrent)
    }

    ghost predicate Valid()
      reads this
    {
      Reachable(Now())
    }

    constructor (maxConcurrent: nat)
      requires maxConcurrent > 0
      ensures Valid() && Init(Now()) && this.maxConcurrent == maxConcurrent
    {
      tasks, removing, activeRuns, cancels, runs, ids, snapshot := map[], map[], map[], map[], map[], {}, {};
      this.maxConcurrent := maxConcurrent;
      new;
      assert CanRun(Now(), []) && After(Now(), []) == Now();
    }

    // ---- the cancel registry ----

    method CancelTaskProcesses(task: string)
      modifies this`runs
      ensures Now() == CancelTask(old(Now()), task)
      ensures old(Valid()) ==> Valid()
    {
      ghost var s := Now();
      var rest := cancels.Keys;
      ghost var done: set<string> := {};
      while rest != {}
        invariant done + rest == cancels.Keys && done !! rest
        invariant runs.Keys == old(runs).Keys
        invariant forall r :: r in runs ==> runs[r] == AfterCancel(cancels, old(runs)[r], done, task, r)
        decreases rest
      {
        var key :| key in rest;
        if key == task || HasPrefix(key, task + ":") {
          match cancels[key]
          case RunContext(r) =>
            if r in runs { runs := runs[r := runs[r].(cancelled := true)]; }
          case TreeContext(_, _) =>
        }
        rest, done := rest - {key}, done + {key};
      }
      assert done == cancels.Keys;
      AllVisited(s, runs, task);
      CancelStaysReachable(s, task);
    }

    method HasTaskProcesses(task: string) returns (found: bool)
      ensures found <==> HasProcesses(Now(), task)
    {
      var rest := cancels.Keys;
      while rest != {}
        invariant rest <= cancels.Keys
        invariant forall key :: key in cancels && Covers(task, key) ==> key in rest
        decreases rest
      {
        var key :| key in rest;
        if key == task || HasPrefix(key, task + ":") { return true; }
        rest := rest - {key};
      }
      return false;
    }

    method IsActiveRun(task: string, run: string) returns (active: bool)
      ensures active <==> Active(Now(), task, run)
    {
      active := task in activeRuns && activeRuns[task] == run;
    }

    method StartForestRun(task: string, run: string)
      modifies this`runs, this`activeRuns, this`cancels, this`ids
      ensures Now() == StartRun(old(Now()), task, run)
    {
      CancelTaskProcesses(task);
      activeRuns := activeRuns[task := run];
      cancels := cancels[RunKey(task, run) := RunContext(run)];
      runs := runs[run := Run(task, false, Starting)];
      ids := ids + {run};
    }

    method UnregisterRun(run: string)
      requires run in runs
      modifies this`runs, this`cancels
      ensures Now() == ExitRun(old(Now()), run)
    {
      cancels := cancels - {RunKey(runs[run].task, run)};
      runs := runs - {run};
    }

    // ---- writes to a task ----

    // Stops at the first subtask with the identifier.
    method SetStatus(task: string, tree: string, status: Status)
      modifies this`tasks
      ensures Now() == Protocol.UpdateTree(old(Now()), task, tree, status)
    {
      if task in tasks {
        var trees := tasks[task].trees;
        var i := 0;
        while i < |trees| && trees[i].id != tree
          invariant 0 <= i <= |trees|
          invariant forall j :: 0 <= j < i ==> trees[j].id != tree
        {
          i := i + 1;
        }
        SetStatusAtFirst(trees, i, tree, status);
        if i < |trees| {
          trees := trees[i := trees[i].(status := status)];
        }
        tasks := tasks[task := tasks[task].(trees := trees)];
      }
    }

    method AddSubtask(task: string, tree: Tree)
      modifies this`tasks
      ensures Now() == Protocol.AddTree(old(Now()), task, tree)
    {
      if task in tasks {
        tasks := tasks[task := tasks[task].(trees := tasks[task].trees + [tree])];
      }
    }

    method Finish(task: string)
      modifies this`tasks
      ensures Now() == Protocol.FinishTask(old(Now()), task)
    {
      if task in tasks {
        tasks := tasks[task := tasks[task].(status := Finished, gardenerStatus := Finished, awaitingUser := false)];
      }
    }

    method PauseForClarification(task: string)
      modifies this`tasks
      ensures Now() == Protocol.PauseTask(old(Now()), task)
    {
      if task in tasks {
        tasks := tasks[task := tasks[task].(status := Finished, gardenerStatus := Finished,
                                            awaitingUser := true, stopRequested := false)];
      }
    }

    // A run ends; it touches its task only as the active run.
    method Quit(run: string, paused: bool)
      requires run in runs
      modifies this`tasks, this`runs, this`cancels
      ensures Now() == if paused then QuitPaused(old(Now()), run) else QuitFinished(old(Now()), run)
    {
      var task := runs[run].task;
      var active := IsActiveRun(task, run);
      if active && paused {
        PauseForClarification(task);
      } else if active {
        Finish(task);
      }
      UnregisterRun(run);
    }

    method IsInterrupted(run: string) returns (b: bool)
      requires run in runs
      ensures b <==> Interrupted(Now(), run)
    {
      b := runs[run].cancelled;
      if !b && runs[run].task in tasks {
        b := tasks[runs[run].task].stopRequested;
      }
    }

    // ---- actions of users ----

    // `vague` says that the prompt itself calls for a question.
    method CreateTask(task: string, maxTrees: nat, vague: bool, run: string)
      requires Valid() && Enabled(Now(), Create(task, maxTrees, vague, run))
      modifies this
      ensures Valid() && Now() == Apply(old(Now()), Create(task, maxTrees, vague, run))
      ensures !vague ==> OwnedBy(Now(), task, run)
    {
      ghost var s := Now();
      tasks := tasks[task := NewTask(maxTrees)];
      ids := ids + {task};
      if vague {
        PauseForClarification(task);
      } else {
        StartForestRun(task, run);
      }
      ReachStep(s, Create(task, maxTrees, vague, run));
      StartedIsOwner(Now(), task, run);
    }

    method SendMessage(task: string, run: string) returns (found: bool)
      requires Valid() && Fresh(Now(), run)
      modifies this
      ensures Valid() && (found <==> task in old(tasks))
      ensures Now() == if found then Apply(old(Now()), Send(task, run)) else old(Now())
      ensures found ==> OwnedBy(Now(), task, run)
    {
      ghost var s := Now();
      found := task in tasks;
      if found {
        tasks := tasks[task := tasks[task].(status := Running, gardenerStatus := Running,
                                            stopRequested := false, awaitingUser := false)];
        StartForestRun(task, run);
        ReachStep(s, Send(task, run));
        StartedIsOwner(Now(), task, run);
      }
    }

    // The write of StopTask; CancelTaskProcesses comes before it.
    method StopTask(task: string) returns (found: bool)
      requires Valid()
      modifies this`tasks
      ensures Valid() && (found <==> task in old(tasks))
      ensures Now() == Apply(old(Now()), StopMark(task))
      ensures found ==> IsStopped(tasks[task])
    {
      ghost var s := Now();
      found := task in tasks;
      if found {
        var k := tasks[task];
        var trees := k.trees;
        for i := 0 to |trees|
          invariant |trees| == |k.trees|
          invariant forall j :: 0 <= j < i ==> trees[j] == FinishTree(k.trees[j])
          invariant forall j :: i <= j < |trees| ==> trees[j] == k.trees[j]
        {
          if trees[i].status.Running? {
            trees := trees[i := trees[i].(status := Finished)];
          }
        }
        assert trees == FinishTrees(k.trees);
        tasks := tasks[task := k.(stopRequested := true, status := Finished, gardenerStatus := Finished,
                                  awaitingUser := false, trees := trees)];
      }
      ReachStep(s, StopMark(task));
    }

    // The end of DeleteTask; CancelTaskProcesses comes before it.  First the entry
    // goes ...
    method DeleteEntry(task: string) returns (found: bool)
      requires Valid()
      modifies this`tasks, this`removing
      ensures Valid() && (found <==> task in old(tasks))
      ensures Now() == if found then Apply(old(Now()), Step.DeleteEntry(task)) else old(Now())
      ensures found ==> tasks == old(tasks) - {task} && removing == old(removing)[task := old(tasks)[task]]
    {
      ghost var s := Now();
      found := task in tasks;
      if found {
        removing := removing[task := tasks[task]];
        tasks := tasks - {task};
        ReachStep(s, Step.DeleteEntry(task));
      }
    }

    // ... and then the files.
    method RemoveFiles(task: string)
      requires Valid() && Enabled(Now(), Step.RemoveFiles(task))
      modifies this`removing
      ensures Valid() && Now() == Apply(old(Now()), Step.RemoveFiles(task))
    {
      ghost var s := Now();
      removing := removing - {task};
      ReachStep(s, Step.RemoveFiles(task));
    }

    // ---- the stretches of runForest ----

    method Begin(run: string)
      requires Valid() && Enabled(Now(), Step.Begin(run))
      modifies this`runs, this`cancels
      ensures Valid() && Now() == Apply(old(Now()), Step.Begin(run))
    {
      ghost var s := Now();
      if runs[run].task !in tasks {
        UnregisterRun(run);
      } else {
        runs := runs[run := runs[run].(pc := Initialising)];
      }
      ReachStep(s, Step.Begin(run));
    }

    // Only the owner of a task goes on to plan.
    method AfterInit(run: string)
      requires Valid() && Enabled(Now(), InitDone(run))
      modifies this`tasks, this`runs, this`cancels
      ensures Valid() && Now() == Apply(old(Now()), InitDone(run))
      ensures run in runs ==> OwnedBy(Now(), runs[run].task, run)
    {
      ghost var s := Now();
      var interrupted := IsInterrupted(run);
      if interrupted {
        Quit(run, false);
      } else {
        runs := runs[run := runs[run].(pc := Planning)];
      }
      ReachStep(s, InitDone(run));
      UninterruptedOwns(s, run);
    }

    method AfterPlan(run: string, answer: Plan)
      requires Valid() && Enabled(Now(), PlanReturned(run, answer))
      modifies this`runs
      ensures Valid() && Now() == Apply(old(Now()), PlanReturned(run, answer))
    {
      ghost var s := Now();
      runs := runs[run := runs[run].(pc := AtHead(NormalizePlan(answer)))];
      ReachStep(s, PlanReturned(run, answer));
    }

    // The head of the loop: leave, ask, finish or open the next stage.  Only the
    // owner opens a stage, and its room for subtasks is bounded.
    method LoopHead(run: string)
      requires Valid() && Enabled(Now(), Head(run))
      modifies this`tasks, this`runs, this`cancels
      ensures Valid() && Now() == Apply(old(Now()), Head(run))
      ensures run in runs ==> OpensStage(old(Now()), run, Now())
    {
      ghost var s := Now();
      var task, plan := runs[run].task, runs[run].pc.plan;
      var interrupted := IsInterrupted(run);
      if interrupted {
        Quit(run, false);
      } else if PlanNeedsClarification(plan) {
        Quit(run, true);
      } else if plan.finished || plan.trees == 0 {
        Quit(run, false);
      } else if task !in tasks {
        UnregisterRun(run);
      } else {
        OpenNextStage(run, plan.trees);
      }
      ReachStep(s, Head(run));
      HeadOpensStage(s, run);
    }

    // The next stage, with no more subtasks than the task allows.
    method OpenNextStage(run: string, trees: nat)
      requires run in runs && runs[run].task in tasks
      modifies this`tasks, this`runs
      ensures Now() == EnterStage(old(Now()), run, trees)
      ensures run in runs && runs[run].pc.Forking?
      ensures RoomFor(trees, old(tasks)[old(runs)[run].task].maxTrees, runs[run].pc.rest)
    {
      var task, planned := runs[run].task, trees;
      var k := tasks[task];
      if planned > k.maxTrees { planned := k.maxTrees; }
      tasks := tasks[task := k.(forest := k.forest + 1, status := Running, gardenerStatus := Running,
                                openedBy := k.openedBy + [run])];
      runs := runs[run := runs[run].(pc := Forking(k.forest + 1, planned, [], 0))];
    }

    method Spawn(run: string, tree: string)
      requires run in runs && runs[run].pc.Forking? && runs[run].pc.rest > 0
      modifies this`tasks, this`runs, this`ids
      ensures Now() == SpawnTree(old(Now()), run, tree)
    {
      var pc := runs[run].pc;
      AddSubtask(runs[run].task, Tree(tree, pc.stage, false, Running, run));
      ids := ids + {tree};
      var workers := pc.workers + [Worker(tree, Waiting)];
      runs := runs[run := runs[run].(pc := pc.(rest := pc.rest - 1, workers := workers))];
    }

    // One turn of the loop of runTreeForest.
    method ForkNext(run: string, tree: string)
      requires Valid() && Enabled(Now(), Fork(run, tree))
      modifies this`tasks, this`runs, this`ids
      ensures Valid() && Now() == Apply(old(Now()), Fork(run, tree))
      ensures runs[run].task in tasks ==>
        Ordinary(tasks[runs[run].task].trees, runs[run].pc.stage) <= tasks[runs[run].task].maxTrees
    {
      ghost var s := Now();
      var pc := runs[run].pc;
      var interrupted := IsInterrupted(run);
      if interrupted {
        runs := runs[run := runs[run].(pc := pc.(rest := 0))];
      } else {
        Spawn(run, tree);
      }
      ReachStep(s, Fork(run, tree));
      if runs[run].task in tasks {
        StageDiscipline(Now(), runs[run].task);
      }
    }

    // The semaphore branch of the select, when a slot is free.
    method AcquireSlot(run: string, w: nat)
      requires Valid() && Enabled(Now(), Acquire(run, w))
      modifies this`runs
      ensures Valid() && Now() == Apply(old(Now()), Acquire(run, w))
      ensures HoldersOf(Now(), run) == HoldersOf(old(Now()), run) + 1 <= maxConcurrent
    {
      ghost var s := Now();
      var pc := MoveWorker(runs[run].pc, w, Holding);
      runs := runs[run := runs[run].(pc := pc.(slots := pc.slots + 1))];
      ReachStep(s, Acquire(run, w));
      AcquireTakesOne(s, run, w);
    }

    // The deferred receive; the branch for an empty semaphore is never taken.
    method ReleaseSlot(run: string, w: nat)
      requires Valid() && Enabled(Now(), Release(run, w))
      modifies this`runs
      ensures Valid() && Now() == Apply(old(Now()), Release(run, w))
      ensures HoldersOf(Now(), run) + 1 == HoldersOf(old(Now()), run) == old(runs[run].pc.slots)
    {
      ghost var s := Now();
      var pc := MoveWorker(runs[run].pc, w, Done);
      if pc.slots > 0 { pc := pc.(slots := pc.slots - 1); }
      runs := runs[run := runs[run].(pc := pc)];
      ReachStep(s, Release(run, w));
      ReleaseGivesOne(s, run, w);
    }

    method FinishTreeBeforeRun(run: string, w: nat)
      requires Valid() && Enabled(Now(), Abort(run, w))
      modifies this`tasks, this`runs
      ensures Valid() && Now() == Apply(old(Now()), Abort(run, w))
      ensures SubtaskFinished(Now(), runs[run].task, runs[run].pc.workers[w].tree)
    {
      ghost var s := Now();
      var r := runs[run];
      SetStatus(r.task, r.pc.workers[w].tree, Finished);
      runs := runs[run := runs[run].(pc := MoveWorker(r.pc, w, Done))];
      ReachStep(s, Abort(run, w));
      UpdateFinishes(s, r.task, r.pc.workers[w].tree);
    }

    method Execute(run: string, w: nat)
      requires AtWorker(Now(), run, w, Holding)
      requires var r := runs[run];
        r.task in tasks && HasTree(tasks[r.task].trees, r.pc.workers[w].tree)
      modifies this`tasks, this`runs, this`cancels
      ensures Now() == StartTreeStep(old(Now()), run, w)
    {
      var r := runs[run];
      var tree := r.pc.workers[w].tree;
      cancels := cancels[TreeKey(r.task, tree) := TreeContext(run, tree)];
      SetStatus(r.task, tree, Running);
      runs := runs[run := runs[run].(pc := MoveWorker(r.pc, w, Executing))];
    }

    method RunTree(run: string, w: nat)
      requires Valid() && Enabled(Now(), StartTree(run, w))
      modifies this`tasks, this`runs, this`cancels
      ensures Valid() && Now() == Apply(old(Now()), StartTree(run, w))
    {
      ghost var s := Now();
      var r := runs[run];
      var tree := r.pc.workers[w].tree;
      if r.task in tasks && HasTree(tasks[r.task].trees, tree) {
        Execute(run, w);
      } else {
        runs := runs[run := runs[run].(pc := MoveWorker(r.pc, w, Returned))];
      }
      ReachStep(s, StartTree(run, w));
    }

    method TreeReturns(run: string, w: nat)
      requires Valid() && Enabled(Now(), TreeReturned(run, w))
      modifies this`tasks, this`runs, this`cancels
      ensures Valid() && Now() == Apply(old(Now()), TreeReturned(run, w))
      ensures SubtaskFinished(Now(), runs[run].task, runs[run].pc.workers[w].tree)
    {
      ghost var s := Now();
      var r := runs[run];
      var tree := r.pc.workers[w].tree;
      SetStatus(r.task, tree, Finished);
      cancels := cancels - {TreeKey(r.task, tree)};
      runs := runs[run := runs[run].(pc := MoveWorker(r.pc, w, Returned))];
      ReachStep(s, TreeReturned(run, w));
      UpdateFinishes(s, r.task, tree);
    }

    method StartValidation(run: string, tree: string)
      requires run in runs && runs[run].pc.Forking?
      modifies this`tasks, this`runs, this`cancels, this`ids
      ensures Now() == Validate(old(Now()), run, tree)
    {
      var task, stage := runs[run].task, runs[run].pc.stage;
      AddSubtask(task, Tree(tree, stage, true, Running, run));
      ids := ids + {tree};
      cancels := cancels[TreeKey(task, tree) := TreeContext(run, tree)];
      runs := runs[run := runs[run].(pc := Validating(stage, tree))];
    }

    // The join of a stage and the start of its validation subtask, which finds all
    // subtasks of the stage finished.
    method AfterJoin(run: string, tree: string)
      requires Valid() && Enabled(Now(), Join(run, tree))
      modifies this`tasks, this`runs, this`cancels, this`ids
      ensures Valid() && Now() == Apply(old(Now()), Join(run, tree))
      ensures var s := old(Now());
        s.runs[run].task in s.tasks ==> StageFinished(s.tasks[s.runs[run].task].trees, s.runs[run].pc.stage)
    {
      ghost var s := Now();
      var task, stage := runs[run].task, runs[run].pc.stage;
      var interrupted := IsInterrupted(run);
      if interrupted {
        Quit(run, false);
      } else if task !in tasks {
        runs := runs[run := runs[run].(pc := Deciding(stage))];
      } else {
        StartValidation(run, tree);
      }
      ReachStep(s, Join(run, tree));
      JoinFindsAllFinished(s, run);
    }

    // The return of the validation subtask, and the check after it.
    method AfterValidation(run: string)
      requires Valid() && Enabled(Now(), Validated(run))
      modifies this`tasks, this`runs, this`cancels
      ensures Valid() && Now() == Apply(old(Now()), Validated(run))
    {
      ghost var s := Now();
      var r := runs[run];
      SetStatus(r.task, r.pc.tree, Finished);
      cancels := cancels - {TreeKey(r.task, r.pc.tree)};
      var interrupted := IsInterrupted(run);
      if interrupted {
        Quit(run, false);
      } else {
        runs := runs[run := runs[run].(pc := Deciding(r.pc.stage))];
      }
      ReachStep(s, Validated(run));
    }

    // Only the owner of a task loops on.
    method AfterDecision(run: string, answer: Plan)
      requires Valid() && Enabled(Now(), Decided(run, answer))
      modifies this`tasks, this`runs, this`cancels
      ensures Valid() && Now() == Apply(old(Now()), Decided(run, answer))
      ensures run in runs ==> OwnedBy(Now(), runs[run].task, run)
    {
      ghost var s := Now();
      var decision := NormalizePlan(answer);
      var interrupted := IsInterrupted(run);
      if interrupted {
        Quit(run, false);
      } else if decision.finished || decision.trees == 0 {
        Quit(run, PlanNeedsClarification(decision));
      } else {
        runs := runs[run := runs[run].(pc := AtHead(decision))];
      }
      ReachStep(s, Decided(run, answer));
      UninterruptedOwns(s, run);
    }

    // The recover branch: a panic outside fork and join.
    method Recover(run: string)
      requires Valid() && Enabled(Now(), Panic(run))
      modifies this`tasks, this`runs, this`cancels
      ensures Valid() && Now() == Apply(old(Now()), Panic(run))
      ensures !Active(old(Now()), old(runs[run].task), run) ==> tasks == old(tasks)
    {
      ghost var s := Now();
      if runs[run].pc.Validating? {
        cancels := cancels - {TreeKey(runs[run].task, runs[run].pc.tree)};
      }
      Quit(run, false);
      assert Now() == PanicStep(s, run);
      ReachStep(s, Panic(run));
    }

    // ---- the service ----

    method ListRunningTasks()
      requires Valid()
      modifies this`snapshot
      ensures Valid() && Now() == Apply(old(Now()), WatchdogList)
    {
      ghost var s := Now();
      var rest := tasks.Keys;
      snapshot := {};
      while rest != {}
        invariant rest <= tasks.Keys
        invariant snapshot == set t | t in tasks.Keys - rest && tasks[t].status.Running?
        decreases rest
      {
        var t :| t in rest;
        if tasks[t].status.Running? { snapshot := snapshot + {t}; }
        rest := rest - {t};
      }
      assert snapshot == RunningTasks(s);
      ReachStep(s, WatchdogList);
    }

    // One visit; it starts a run exactly when no run of the task is alive.
    method WatchdogVisit(task: string, run: string) returns (started: bool)
      requires Valid() && Enabled(Now(), Step.WatchdogVisit(task, run))
      modifies this
      ensures Valid() && Now() == Apply(old(Now()), Step.WatchdogVisit(task, run))
      ensures started <==> !HasLiveRun(old(Now()), task)
      ensures started ==> OwnedBy(Now(), task, run)
    {
      ghost var s := Now();
      var busy := HasTaskProcesses(task);
      snapshot := snapshot - {task};
      started := !busy;
      if started { StartForestRun(task, run); }
      ReachStep(s, Step.WatchdogVisit(task, run));
      VisitStartsExactly(s, task, run);
      StartedIsOwner(Now(), task, run);
    }

    // The tasks as Load gives them, with all subtasks ended, and those of `revived`
    // set running, whose logs hold the sentence of an old version.
    method LoadedTasks(revived: set<string>) returns (loaded: map<string, Task>)
      ensures loaded == Reloaded(Now(), revived).tasks
    {
      var found := removing + tasks;
      var rest := found.Keys;
      loaded := map[];
      while rest != {}
        invariant rest <= found.Keys && loaded.Keys == found.Keys - rest
        invariant forall t :: t in loaded ==> loaded[t] == Recovered(found[t], t in revived)
        decreases rest
      {
        var t :| t in rest;
        var task := found[t].(trees := FinishTrees(found[t].trees));
        if t in revived {
          task := task.(status := Running, gardenerStatus := Running);
        }
        loaded := loaded[t := task];
        rest := rest - {t};
      }
    }

    // A new process: Load ...
    method LoadAll(revived: set<string>)
      modifies this
      ensures Now() == Reloaded(old(Now()), revived)
    {
      tasks := LoadedTasks(revived);
      removing, activeRuns, cancels, runs, snapshot := map[], map[], map[], map[], {};
    }

    // ... and then the unfinished tasks go on.
    method Restart(revived: set<string>, listed: seq<Resumption>)
      requires Valid() && MayRevive(Now(), revived) && ListsAll(Reloaded(Now(), revived), listed)
      modifies this
      ensures Valid()
      ensures Enabled(old(Now()), Step.Restart(revived, ToContinue(Reloaded(old(Now()), revived), listed)))
      ensures Now() ==
        Apply(old(Now()), Step.Restart(revived, ToContinue(Reloaded(old(Now()), revived), listed)))
    {
      ghost var s := Now();
      ghost var s0 := Reloaded(s, revived);
      LoadAll(revived);
      ResumptionsAreComplete(s0, listed);
      ResumeUnfinished(listed);
      ReachStep(s, Step.Restart(revived, ToContinue(s0, listed)));
    }

    method Resume(r: Resumption)
      requires r.task in tasks
      modifies this
      ensures Now() == ResumeOne(old(Now()), r)
    {
      tasks := tasks[r.task := tasks[r.task].(status := Running, gardenerStatus := Running)];
      StartForestRun(r.task, r.run);
    }

    // `listed` is ListTasks in its order, with the identifiers newID would draw.
    method ResumeUnfinished(listed: seq<Resumption>)
      requires forall i :: 0 <= i < |listed| ==> listed[i].task in tasks
      modifies this
      ensures Now() == ResumeAll(old(Now()), ToContinue(old(Now()), listed))
    {
      var before := tasks;
      var i := 0;
      while i < |listed|
        invariant 0 <= i <= |listed|
        invariant tasks.Keys == old(tasks).Keys && before == old(tasks)
        invariant ResumeAll(Now(), ToContinue(old(Now()), listed[i..])) ==
                  ResumeAll(old(Now()), ToContinue(old(Now()), listed))
      {
        var r := listed[i];
        ghost var rest := ToContinue(old(Now()), listed[i + 1..]);
        assert listed[i..][0] == r && listed[i..][1..] == listed[i + 1..];
        if before[r.task].status.Running? && !before[r.task].stopRequested {
          Resume(r);
          assert ([r] + rest)[1..] == rest;
        } else {
          assert [] + rest == rest;
        }
        i := i + 1;
      }
      assert listed[i..] == [];
    }
  }

  function ToContinue(s: State, listed: seq<Resumption>): seq<Resumption>
    requires forall i :: 0 <= i < |listed| ==> listed[i].task in s.tasks
  {
    if listed == [] then []
    else (if Unfinished(s.tasks[listed[0].task]) then [listed[0]] else []) + ToContinue(s, listed[1..])
  }

  // The service sees every task once and draws a new identifier for each.
  ghost predicate ListsAll(s: State, listed: seq<Resumption>) {
    && (forall t :: t in s.tasks ==> exists i :: 0 <= i < |listed| && listed[i].task == t)
    && ListsSome(s, listed)
  }

  ghost predicate ListsSome(s: State, listed: seq<Resumption>) {
    && (forall i :: 0 <= i < |listed| ==> listed[i].task in s.tasks && Fresh(s, listed[i].run))
    && (forall i, j :: 0 <= i < j < |listed| ==> listed[i].task != listed[j].task && listed[i].run != listed[j].run)
  }

  lemma {:induction false} ToContinueSelects(s: State, listed: seq<Resumption>)
    requires forall i :: 0 <= i < |listed| ==> listed[i].task in s.tasks
    ensures forall r :: r in ToContinue(s, listed) <==> r in listed && Unfinished(s.tasks[r.task])
  {
    if listed != [] {
      ToContinueSelects(s, listed[1..]);
      assert listed == [listed[0]] + listed[1..];
    }
  }

  lemma {:induction false} ToContinueIsDistinct(s: State, listed: seq<Resumption>)
    requires ListsSome(s, listed)
    ensures ListsSome(s, ToContinue(s, listed))
  {
    if listed != [] {
      var rest := listed[1..];
      assert forall i :: 0 <= i < |rest| ==> rest[i] == listed[i + 1];
      ToContinueIsDistinct(s, rest);
      ToContinueSelects(s, rest);
      var chosen := ToContinue(s, rest);
      forall i | 0 <= i < |chosen|
        ensures chosen[i].task != listed[0].task && chosen[i].run != listed[0].run
      {
        assert chosen[i] in rest;
      }
    }
  }

  // So the loop performs exactly the resumptions the restart step asks for.
  lemma {:induction false} ResumptionsAreComplete(s: State, listed: seq<Resumption>)
    requires ListsAll(s, listed)
    ensures Resumes(s, ToContinue(s, listed))
  {
    ToContinueSelects(s, listed);
    ToContinueIsDistinct(s, listed);
    var chosen := ToContinue(s, listed);
    forall i | 0 <= i < |chosen|
      ensures Unfinished(s.tasks[chosen[i].task])
    {
      assert chosen[i] in chosen;
    }
    forall t | t in s.tasks && Unfinished(s.tasks[t])
      ensures exists i :: 0 <= i < |chosen| && chosen[i].task == t
    {
      var i :| 0 <= i < |listed| && listed[i].task == t;
      assert listed[i] in chosen;
    }
  }

  // ---- what the handlers promise ----

  // The run is alive, is the active one, and every other run of the task has been
  // cancelled.
  ghost predicate OwnedBy(s: State, task: string, run: string) {
    && run in s.runs && s.runs[run].task == task && Active(s, task, run)
    && forall r :: r in s.runs && s.runs[r].task == task && r != run ==> s.runs[r].cancelled
  }

  lemma {:induction false} StartedIsOwner(s: State, task: string, run: string)
    requires Reachable(s)
    ensures run in s.runs && s.runs[run].task == task && Active(s, task, run) ==> OwnedBy(s, task, run)
  {
    ReachableIsSafe(s);
    assert Superseded(s);
  }

  lemma {:induction false} UninterruptedOwns(s: State, run: string)
    requires Reachable(s) && run in s.runs
    ensures !Interrupted(s, run) ==> OwnedBy(s, s.runs[run].task, run)
  {
    ReachableIsSafe(s);
    if !Interrupted(s, run) {
      UninterruptedIsActive(s, run);
      StartedIsOwner(s, s.runs[run].task, run);
    }
  }

  // The step of the owner that opens the next stage, with room for the subtasks of
  // the plan as far as the task allows them.
  ghost predicate OpensStage(s: State, run: string, s1: State)
    requires run in s.runs && run in s1.runs
  {
    var task, pc := s.runs[run].task, s1.runs[run].pc;
    && OwnedBy(s, task, run) && task in s.tasks && task in s1.tasks
    && s1.tasks[task].forest == s.tasks[task].forest + 1
    && s.runs[run].pc.AtHead? && pc.Forking? && pc.stage == s1.tasks[task].forest && pc.workers == []
    && RoomFor(s.runs[run].pc.plan.trees, s.tasks[task].maxTrees, pc.rest)
  }

  predicate RoomFor(planned: nat, maxTrees: nat, room: nat) {
    room <= planned && room <= maxTrees && (room == planned || room == maxTrees)
  }

  lemma {:induction false} HeadOpensStage(s: State, run: string)
    requires Reachable(s) && Enabled(s, Head(run))
    ensures run in HeadStep(s, run).runs ==> OpensStage(s, run, HeadStep(s, run))
  {
    UninterruptedOwns(s, run);
  }

  ghost predicate IsStopped(k: Task) {
    && k.stopRequested && k.status.Finished? && !k.awaitingUser
    && forall i :: 0 <= i < |k.trees| ==> k.trees[i].status.Finished?
  }

  lemma {:induction false} CancelStaysReachable(s: State, task: string)
    ensures Reachable(s) ==> Reachable(CancelTask(s, task))
  {
    if Reachable(s) {
      ReachStep(s, Cancel(task));
    }
  }

  lemma {:induction false} AcquireTakesOne(s: State, run: string, w: nat)
    requires Reachable(s) && Enabled(s, Acquire(run, w))
    ensures HoldersOf(AcquireStep(s, run, w), run) == HoldersOf(s, run) + 1 <= s.maxConcurrent
  {
    MoveCounts(s.runs[run].pc.workers, w, Holding);
    SlotsAreBounded(s, run);
  }

  lemma {:induction false} ReleaseGivesOne(s: State, run: string, w: nat)
    requires Reachable(s) && Enabled(s, Release(run, w))
    ensures HoldersOf(ReleaseStep(s, run, w), run) + 1 == HoldersOf(s, run) == s.runs[run].pc.slots
  {
    MoveCounts(s.runs[run].pc.workers, w, Done);
    SlotsAreBounded(s, run);
  }

  ghost function HoldersOf(s: State, run: string): nat {
    if run in s.runs && s.runs[run].pc.Forking? then Holders(s.runs[run].pc.workers) else 0
  }

  ghost predicate SubtaskFinished(s: State, task: string, tree: string) {
    task in s.tasks ==>
      forall i :: 0 <= i < |s.tasks[task].trees| && s.tasks[task].trees[i].id == tree ==>
        s.tasks[task].trees[i].status.Finished?
  }

  lemma {:induction false} UpdateFinishes(s: State, task: string, tree: string)
    requires Reachable(s)
    ensures SubtaskFinished(UpdateTree(s, task, tree, Finished), task, tree)
  {
    if task in s.tasks {
      ReachableIsSafe(s);
      assert TaskShape(s.tasks[task]);
      SetStatusPointwise(s.tasks[task].trees, tree, Finished);
    }
  }
}
