/** What users, the watchdog and a restart do to tasks and runs, said of the state
    before and after. */
module ServiceCourse {
  import opened ProcessKeys
  import opened Protocol
  import opened Ownership
  import opened LiveKeys
  import opened Flags
  import opened Safety

  // ---- users, the watchdog and the service ----

  // A new run of the task, the only one that is not cancelled, and the active one.
  predicate Launches(s: State, task: string, run: string, s1: State) {
    && s1.activeRuns == s.activeRuns[task := run]
    && s1.cancels == s.cancels[RunKey(task, run) := RunContext(run)]
    && s1.runs.Keys == s.runs.Keys + {run} && s1.runs[run] == Run(task, false, Starting)
    && (forall r :: r in s.runs ==>
          s1.runs[r] == if s.runs[r].task == task then s.runs[r].(cancelled := true) else s.runs[r])
    && s1.ids == s.ids + {run} && s1.removing == s.removing
  }

  lemma {:induction false} StartLaunches(s: State, task: string, run: string, exempt: set<string>)
    requires OwnershipExcept(s, exempt) && task in s.ids && Fresh(s, run)
    ensures Launches(s, task, run, StartRun(s, task, run))
    ensures StartRun(s, task, run).tasks == s.tasks && StartRun(s, task, run).snapshot == s.snapshot
  {
    CancelIsExact(s, task);
  }

  // A new task runs at once, or has asked its question.
  lemma {:induction false} CreateStarts(s: State, task: string, maxTrees: nat, vague: bool, run: string)
    requires Reachable(s) && Enabled(s, Create(task, maxTrees, vague, run))
    ensures var s1 := Apply(s, Create(task, maxTrees, vague, run));
      if vague then
        s1 == s.(ids := s.ids + {task},
                 tasks := s.tasks[task := Task(Finished, Finished, false, true, 0, maxTrees, [], [])])
      else
        && s1.tasks == s.tasks[task := Task(Running, Running, false, false, 0, maxTrees, [], [])]
        && s1.snapshot == s.snapshot
        && Launches(s.(ids := s.ids + {task}), task, run, s1)
  {
    ReachableIsSafe(s);
    var s0 := s.(ids := s.ids + {task});
    var k := NewTask(maxTrees);
    if vague {
      assert s.tasks[task := k][task := MarkPaused(k)] == s.tasks[task := MarkPaused(k)];
    } else {
      NewIdKeepsOwnership(s, task);
      assert OwnershipExcept(s0, {task});
      TaskUpdateKeepsOwnership(s0, task, k, {task});
      StartLaunches(WithTask(s0, task, k), task, run, {task});
    }
  }

  // A message sets the task running, takes back stop and question, and hands the
  // task to a new run.
  lemma {:induction false} SendTakesOver(s: State, task: string, run: string)
    requires Reachable(s) && Enabled(s, Send(task, run))
    ensures var s1, k := Apply(s, Send(task, run)), s.tasks[task];
      && s1.tasks == s.tasks[task := Task(Running, Running, false, false, k.forest, k.maxTrees, k.trees, k.openedBy)]
      && s1.snapshot == s.snapshot && Launches(s, task, run, s1)
  {
    ReachableIsSafe(s);
    assert OwnershipExcept(s, {task});
    TaskUpdateKeepsOwnership(s, task, MarkRunning(s.tasks[task]), {task});
    StartLaunches(WithTask(s, task, MarkRunning(s.tasks[task])), task, run, {task});
  }

  // A stop finishes the task and all its subtasks.
  lemma {:induction false} StopFinishes(s: State, task: string)
    requires task in s.tasks
    ensures var s1, k := Apply(s, StopMark(task)), s.tasks[task];
      task in s1.tasks &&
      var trees := s1.tasks[task].trees;
      && s1 == s.(tasks := s.tasks[task := Task(Finished, Finished, true, false, k.forest, k.maxTrees, trees,
                                                k.openedBy)])
      && |trees| == |k.trees| && forall i :: 0 <= i < |trees| ==> trees[i] == k.trees[i].(status := Finished)
  {
  }

  // The list of the watchdog, and a visit to one task of it.
  lemma {:induction false} VisitLaunches(s: State, task: string, run: string)
    requires Reachable(s) && Enabled(s, WatchdogVisit(task, run))
    ensures var s1 := Apply(s, WatchdogVisit(task, run));
      && s1.tasks == s.tasks && s1.snapshot == s.snapshot - {task}
      && if exists r :: r in s.runs && s.runs[r].task == task then s1 == s.(snapshot := s.snapshot - {task})
         else Launches(s, task, run, s1)
  {
    ReachableIsSafe(s);
    ProcessesIffLiveRun(s, task);
    SnapshotKeepsOwnership(s, s.snapshot - {task});
    StartLaunches(s.(snapshot := s.snapshot - {task}), task, run, {});
  }

  lemma {:induction false} ListNamesRunning(s: State)
    ensures Apply(s, WatchdogList) ==
      s.(snapshot := set t | t in s.tasks && s.tasks[t].status == Running)
  {
  }

  // ---- restarts ----

  function RunsOf(resumed: seq<Resumption>): set<string> {
    set i | 0 <= i < |resumed| :: resumed[i].run
  }

  // A task that is or is not resumed.
  predicate ResumedTask(k: Task, resumed: bool, k1: Task) {
    if resumed then k1 == k.(status := Running, gardenerStatus := Running) else k1 == k
  }

  // All tasks of the list are running, and no other task has changed.
  ghost predicate TasksResumed(s: State, resumed: seq<Resumption>, s1: State) {
    && s1.removing == s.removing && s1.snapshot == s.snapshot
    && s1.tasks.Keys == s.tasks.Keys
    && forall t :: t in s.tasks ==> ResumedTask(s.tasks[t], t in ToResume(resumed), s1.tasks[t])
  }

  // Each has a new run of its own, which is its active run.
  ghost predicate RunsResumed(s: State, resumed: seq<Resumption>, s1: State) {
    && s1.runs.Keys == s.runs.Keys + RunsOf(resumed)
    && (forall r :: r in s.runs ==> s1.runs[r] == s.runs[r])
    && forall i :: 0 <= i < |resumed| ==> s1.runs[resumed[i].run] == Run(resumed[i].task, false, Starting)
  }

  ghost predicate OwnersResumed(s: State, resumed: seq<Resumption>, s1: State) {
    && (forall i :: 0 <= i < |resumed| ==>
          resumed[i].task in s1.activeRuns && s1.activeRuns[resumed[i].task] == resumed[i].run)
    && forall t :: t in s.activeRuns && t !in ToResume(resumed) ==>
         t in s1.activeRuns && s1.activeRuns[t] == s.activeRuns[t]
  }

  ghost predicate AllResumed(s: State, resumed: seq<Resumption>, s1: State) {
    TasksResumed(s, resumed, s1) && RunsResumed(s, resumed, s1) && OwnersResumed(s, resumed, s1)
  }

  ghost predicate Distinct(resumed: seq<Resumption>) {
    forall i, j :: 0 <= i < j < |resumed| ==>
      resumed[i].task != resumed[j].task && resumed[i].run != resumed[j].run
  }

  // The tasks are there, their new runs are new, and they have no runs yet.
  ghost predicate Resumable(s: State, resumed: seq<Resumption>) {
    && (forall i :: 0 <= i < |resumed| ==> resumed[i].task in s.tasks && Fresh(s, resumed[i].run))
    && Distinct(resumed)
    && forall r :: r in s.runs ==> s.runs[r].task !in ToResume(resumed)
  }

  ghost predicate MayResume(s: State, resumed: seq<Resumption>) {
    OwnershipExcept(s, ToResume(resumed)) && Resumable(s, resumed)
  }

  lemma {:induction false} ListSplits(resumed: seq<Resumption>)
    requires resumed != [] && Distinct(resumed)
    ensures ToResume(resumed) == ToResume(resumed[1..]) + {resumed[0].task}
    ensures RunsOf(resumed) == RunsOf(resumed[1..]) + {resumed[0].run}
    ensures resumed[0].task !in ToResume(resumed[1..]) && resumed[0].run !in RunsOf(resumed[1..])
    ensures Distinct(resumed[1..])
  {
    var rest := resumed[1..];
    assert forall i :: 0 <= i < |rest| ==> rest[i] == resumed[i + 1];
    forall t | t in ToResume(resumed)
      ensures t in ToResume(rest) + {resumed[0].task}
    {
      var i :| 0 <= i < |resumed| && resumed[i].task == t;
      assert i > 0 ==> rest[i - 1].task == t;
    }
    forall r | r in RunsOf(resumed)
      ensures r in RunsOf(rest) + {resumed[0].run}
    {
      var i :| 0 <= i < |resumed| && resumed[i].run == r;
      assert i > 0 ==> rest[i - 1].run == r;
    }
    assert resumed[0].task in ToResume(resumed) && resumed[0].run in RunsOf(resumed);
  }

  // What the first of the list does.
  ghost predicate OneResumed(s: State, r: Resumption, s1: State)
    requires r.task in s.tasks
  {
    && s1.tasks == s.tasks[r.task := s.tasks[r.task].(status := Running, gardenerStatus := Running)]
    && s1.snapshot == s.snapshot && Launches(s, r.task, r.run, s1)
  }

  lemma {:induction false} FirstResumed(s: State, r: Resumption, exempt: set<string>)
    requires OwnershipExcept(s, exempt) && r.task in exempt && r.task in s.tasks && Fresh(s, r.run)
    ensures OneResumed(s, r, ResumeOne(s, r)) && OwnershipExcept(ResumeOne(s, r), exempt - {r.task})
  {
    var k := s.tasks[r.task].(status := Running, gardenerStatus := Running);
    TaskUpdateKeepsOwnership(s, r.task, k, exempt);
    StartKeepsOwnership(WithTask(s, r.task, k), r.task, r.run, exempt);
    StartLaunches(WithTask(s, r.task, k), r.task, r.run, exempt);
  }

  lemma {:induction false} RestIsResumable(s: State, resumed: seq<Resumption>, s1: State)
    requires resumed != [] && Resumable(s, resumed) && OneResumed(s, resumed[0], s1)
    ensures Resumable(s1, resumed[1..])
  {
    var rest := resumed[1..];
    ListSplits(resumed);
    assert forall i :: 0 <= i < |rest| ==> rest[i] == resumed[i + 1];
  }

  lemma {:induction false} TasksOneMore(s: State, resumed: seq<Resumption>, s1: State, s2: State)
    requires resumed != [] && Resumable(s, resumed) && OneResumed(s, resumed[0], s1)
    requires TasksResumed(s1, resumed[1..], s2)
    ensures TasksResumed(s, resumed, s2)
  {
    ListSplits(resumed);
  }

  lemma {:induction false} RunsOneMore(s: State, resumed: seq<Resumption>, s1: State, s2: State)
    requires resumed != [] && Resumable(s, resumed) && OneResumed(s, resumed[0], s1)
    requires RunsResumed(s1, resumed[1..], s2)
    ensures RunsResumed(s, resumed, s2)
  {
    var first, rest := resumed[0], resumed[1..];
    ListSplits(resumed);
    forall r | r in s.runs
      ensures s2.runs[r] == s.runs[r]
    {
      assert s.runs[r].task != first.task;
    }
    forall i | 0 <= i < |resumed|
      ensures s2.runs[resumed[i].run] == Run(resumed[i].task, false, Starting)
    {
      assert i > 0 ==> rest[i - 1] == resumed[i];
    }
  }

  lemma {:induction false} OwnersOneMore(s: State, resumed: seq<Resumption>, s1: State, s2: State)
    requires resumed != [] && Resumable(s, resumed) && OneResumed(s, resumed[0], s1)
    requires OwnersResumed(s1, resumed[1..], s2)
    ensures OwnersResumed(s, resumed, s2)
  {
    var first, rest := resumed[0], resumed[1..];
    ListSplits(resumed);
    forall i | 0 <= i < |resumed|
      ensures resumed[i].task in s2.activeRuns && s2.activeRuns[resumed[i].task] == resumed[i].run
    {
      assert i > 0 ==> rest[i - 1] == resumed[i];
    }
  }

  lemma {:induction false} ResumesAll(s: State, resumed: seq<Resumption>)
    requires MayResume(s, resumed)
    ensures AllResumed(s, resumed, ResumeAll(s, resumed))
    decreases |resumed|
  {
    if resumed != [] {
      var s1 := ResumeOne(s, resumed[0]);
      ListSplits(resumed);
      FirstResumed(s, resumed[0], ToResume(resumed));
      RestIsResumable(s, resumed, s1);
      assert ToResume(resumed) - {resumed[0].task} == ToResume(resumed[1..]);
      ResumesAll(s1, resumed[1..]);
      var s2 := ResumeAll(s, resumed);
      TasksOneMore(s, resumed, s1, s2);
      RunsOneMore(s, resumed, s1, s2);
      OwnersOneMore(s, resumed, s1, s2);
    }
  }

  // A task as a restart leaves it: every subtask finished, and running if it was or
  // has been revived; the rest as it was.
  predicate TaskReturns(k: Task, revived: bool, k1: Task) {
    && k1 == Task(if revived then Running else k.status, if revived then Running else k.gardenerStatus,
                  k.stopRequested, k.awaitingUser, k.forest, k.maxTrees, k1.trees, k.openedBy)
    && |k1.trees| == |k.trees| && forall i :: 0 <= i < |k.trees| ==> k1.trees[i] == k.trees[i].(status := Finished)
  }

  // After a restart exactly the tasks with files are there; those that run are those
  // resumed.
  ghost predicate TasksComeUp(s: State, revived: set<string>, resumed: seq<Resumption>, s1: State) {
    && s1.removing == map[] && s1.snapshot == {}
    && s1.tasks.Keys == s.tasks.Keys + s.removing.Keys
    && (forall t :: t in s1.tasks ==>
          && TaskReturns(if t in s.tasks then s.tasks[t] else s.removing[t], t in revived, s1.tasks[t])
          && (s1.tasks[t].status == Running <==> t in ToResume(resumed)))
  }

  // Each of these has one run, a new one, and no other run is left.
  ghost predicate RunsComeUp(resumed: seq<Resumption>, s1: State) {
    && s1.runs.Keys == RunsOf(resumed)
    && forall i :: 0 <= i < |resumed| ==>
         && s1.runs[resumed[i].run] == Run(resumed[i].task, false, Starting)
         && resumed[i].task in s1.activeRuns && s1.activeRuns[resumed[i].task] == resumed[i].run
  }

  lemma {:induction false} ReloadedReturns(s: State, revived: set<string>, t: string)
    requires t in Found(s)
    ensures t in Reloaded(s, revived).tasks
    ensures TaskReturns(Found(s)[t], t in revived, Reloaded(s, revived).tasks[t])
  {
  }

  lemma {:induction false} UnfinishedAreResumed(s: State, revived: set<string>, resumed: seq<Resumption>, t: string)
    requires AllAgree(s) && MayRevive(s, revived) && Resumes(Reloaded(s, revived), resumed) && t in Found(s)
    ensures Reloaded(s, revived).tasks[t].status == Running <==> t in ToResume(resumed)
  {
    ReloadedReturns(s, revived, t);
    assert FlagsAgree(Found(s)[t]);
    if Reloaded(s, revived).tasks[t].status == Running {
      assert Unfinished(Reloaded(s, revived).tasks[t]);
    }
  }

  lemma {:induction false} ReloadedMayResume(s: State, revived: set<string>, resumed: seq<Resumption>)
    requires Owned(s) && AllAgree(s) && MayRevive(s, revived) && Resumes(Reloaded(s, revived), resumed)
    ensures MayResume(Reloaded(s, revived), resumed)
  {
    var s0 := Reloaded(s, revived);
    forall t | t in s0.tasks && s0.tasks[t].status == Running
      ensures t in ToResume(resumed)
    {
      UnfinishedAreResumed(s, revived, resumed, t);
    }
  }

  lemma {:induction false} ResumedReturns(k: Task, revived: bool, k0: Task, resumed: bool, k1: Task)
    requires TaskReturns(k, revived, k0) && ResumedTask(k0, resumed, k1) && FlagsAgree(k)
    requires resumed <==> k0.status == Running
    ensures TaskReturns(k, revived, k1) && (k1.status == Running <==> resumed)
  {
  }

  lemma {:induction false} TaskComesUp(s: State, revived: set<string>, resumed: seq<Resumption>, s1: State, t: string)
    requires AllAgree(s) && MayRevive(s, revived) && Resumes(Reloaded(s, revived), resumed)
    requires TasksResumed(Reloaded(s, revived), resumed, s1) && t in Found(s)
    ensures t in s1.tasks && TaskReturns(Found(s)[t], t in revived, s1.tasks[t])
    ensures s1.tasks[t].status == Running <==> t in ToResume(resumed)
  {
    var s0 := Reloaded(s, revived);
    ReloadedReturns(s, revived, t);
    UnfinishedAreResumed(s, revived, resumed, t);
    assert FlagsAgree(Found(s)[t]);
    ResumedReturns(Found(s)[t], t in revived, s0.tasks[t], t in ToResume(resumed), s1.tasks[t]);
  }

  lemma {:induction false} AllTasksComeUp(s: State, revived: set<string>, resumed: seq<Resumption>, s1: State)
    requires AllAgree(s) && MayRevive(s, revived) && Resumes(Reloaded(s, revived), resumed)
    requires TasksResumed(Reloaded(s, revived), resumed, s1)
    ensures TasksComeUp(s, revived, resumed, s1)
  {
    assert Reloaded(s, revived).tasks.Keys == Found(s).Keys;
    forall t | t in Found(s)
      ensures t in s1.tasks
      ensures TaskReturns(if t in s.tasks then s.tasks[t] else s.removing[t], t in revived, s1.tasks[t])
      ensures s1.tasks[t].status == Running <==> t in ToResume(resumed)
    {
      TaskComesUp(s, revived, resumed, s1, t);
    }
  }

  lemma {:induction false} RestartResumes(s: State, revived: set<string>, resumed: seq<Resumption>)
    requires Owned(s) && AllAgree(s) && MayRevive(s, revived) && Resumes(Reloaded(s, revived), resumed)
    ensures AllResumed(Reloaded(s, revived), resumed, RestartStep(s, revived, resumed))
  {
    ReloadedMayResume(s, revived, resumed);
    ResumesAll(Reloaded(s, revived), resumed);
  }

  lemma {:induction false} AllRunsComeUp(s: State, revived: set<string>, resumed: seq<Resumption>, s1: State)
    requires RunsResumed(Reloaded(s, revived), resumed, s1) && OwnersResumed(Reloaded(s, revived), resumed, s1)
    ensures RunsComeUp(resumed, s1)
  {
  }

  lemma {:induction false} RestartComesUp(s: State, revived: set<string>, resumed: seq<Resumption>)
    requires Owned(s) && AllAgree(s) && MayRevive(s, revived) && Resumes(Reloaded(s, revived), resumed)
    ensures TasksComeUp(s, revived, resumed, RestartStep(s, revived, resumed))
    ensures RunsComeUp(resumed, RestartStep(s, revived, resumed))
  {
    var s1 := RestartStep(s, revived, resumed);
    RestartResumes(s, revived, resumed);
    AllTasksComeUp(s, revived, resumed, s1);
    AllRunsComeUp(s, revived, resumed, s1);
  }

  lemma {:induction false} ServiceComesUp(s: State, revived: set<string>, resumed: seq<Resumption>)
    requires Reachable(s) && Enabled(s, Restart(revived, resumed))
    ensures TasksComeUp(s, revived, resumed, Apply(s, Restart(revived, resumed)))
    ensures RunsComeUp(resumed, Apply(s, Restart(revived, resumed)))
  {
    ReachableIsSafe(s);
    RestartComesUp(s, revived, resumed);
  }
}
