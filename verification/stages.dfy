/** Stage discipline.  A task's stage counter grows by one per stage, a stage
    belongs to the run that opened it, it has at most maxTrees ordinary
    subtasks, and its one validation subtask comes after all of them have
    finished. */
module Stages {
  import opened ProcessKeys
  import opened Protocol

  // ---- lists of subtasks ----

  ghost predicate DistinctIds(trees: seq<Tree>) {
    forall i, j :: 0 <= i < j < |trees| ==> trees[i].id != trees[j].id
  }

  // UpdateTree changes the status of the named subtask and nothing else.
  lemma {:induction false} SetStatusPointwise(trees: seq<Tree>, id: string, status: Status)
    requires DistinctIds(trees)
    ensures |SetTreeStatus(trees, id, status)| == |trees|
    ensures forall i :: 0 <= i < |trees| ==>
      SetTreeStatus(trees, id, status)[i] == if trees[i].id == id then trees[i].(status := status) else trees[i]
  {
    if trees != [] && trees[0].id != id {
      SetStatusPointwise(trees[1..], id, status);
    }
  }

  lemma {:induction false} OrdinaryAgrees(a: seq<Tree>, b: seq<Tree>, n: nat)
    requires |a| == |b|
    requires forall i :: 0 <= i < |a| ==> a[i].stage == b[i].stage && a[i].validation == b[i].validation
    ensures Ordinary(a, n) == Ordinary(b, n)
  {
    if a != [] {
      OrdinaryAgrees(a[..|a| - 1], b[..|b| - 1], n);
    }
  }

  lemma {:induction false} OrdinaryAppend(trees: seq<Tree>, t: Tree, n: nat)
    ensures Ordinary(trees + [t], n) == Ordinary(trees, n) + (if t.stage == n && !t.validation then 1 else 0)
  {
    assert (trees + [t])[..|trees|] == trees;
  }

  lemma {:induction false} OrdinaryAbsent(trees: seq<Tree>, n: nat)
    requires forall i :: 0 <= i < |trees| ==> trees[i].stage != n
    ensures Ordinary(trees, n) == 0
  {
    if trees != [] {
      OrdinaryAbsent(trees[..|trees| - 1], n);
    }
  }

  ghost predicate NoValidation(trees: seq<Tree>, n: nat) {
    forall i :: 0 <= i < |trees| && trees[i].stage == n ==> !trees[i].validation
  }

  // ---- the invariant ----

  ghost predicate StagesOpened(k: Task) {
    && |k.openedBy| == k.forest
    && forall i :: 0 <= i < |k.trees| ==>
       1 <= k.trees[i].stage <= k.forest && k.trees[i].run == k.openedBy[k.trees[i].stage - 1]
  }

  ghost predicate StagesBounded(k: Task) {
    forall n: nat :: Ordinary(k.trees, n) <= k.maxTrees
  }

  ghost predicate ValidationLast(trees: seq<Tree>) {
    forall i, j :: 0 <= i < |trees| && 0 <= j < |trees| && i != j ==>
      trees[i].validation && trees[j].stage == trees[i].stage ==>
      j < i && !trees[j].validation && trees[j].status.Finished?
  }

  ghost predicate TaskShape(k: Task) {
    StagesOpened(k) && StagesBounded(k) && DistinctIds(k.trees) && ValidationLast(k.trees)
  }

  ghost predicate Opened(k: Task, run: string, stage: nat) {
    1 <= stage <= |k.openedBy| == k.forest && k.openedBy[stage - 1] == run
  }

  predicate Over(pc: WorkerPc) {
    pc.Returned? || pc.Done?
  }

  function WorkerIds(workers: seq<Worker>): set<string> {
    set w | 0 <= w < |workers| :: workers[w].tree
  }

  ghost predicate DistinctWorkers(workers: seq<Worker>) {
    forall v, w :: 0 <= v < w < |workers| ==> workers[v].tree != workers[w].tree
  }

  // The workers of a stage are exactly its subtasks, and a worker that is over
  // has left its subtask finished.
  ghost predicate WorkersMatch(trees: seq<Tree>, stage: nat, workers: seq<Worker>) {
    && DistinctWorkers(workers)
    && (forall i :: 0 <= i < |trees| && trees[i].stage == stage ==> trees[i].id in WorkerIds(workers))
    && (forall i, w :: 0 <= i < |trees| && 0 <= w < |workers| && trees[i].id == workers[w].tree ==>
        trees[i].stage == stage && (Over(workers[w].pc) ==> trees[i].status.Finished?))
  }

  ghost predicate PcShape(k: Task, run: string, pc: Pc) {
    && (pc.Forking? ==>
        && Opened(k, run, pc.stage)
        && NoValidation(k.trees, pc.stage)
        && Ordinary(k.trees, pc.stage) == |pc.workers|
        && Ordinary(k.trees, pc.stage) + pc.rest <= k.maxTrees
        && WorkersMatch(k.trees, pc.stage, pc.workers))
    && (pc.Validating? ==> Opened(k, run, pc.stage))
  }

  ghost predicate TreesKnown(ids: set<string>, trees: seq<Tree>) {
    forall i :: 0 <= i < |trees| ==> trees[i].id in ids
  }

  ghost predicate TasksShaped(s: State) {
    forall t :: t in s.tasks ==> t in s.ids && TaskShape(s.tasks[t]) && TreesKnown(s.ids, s.tasks[t].trees)
  }

  // The same of the tasks whose files have yet to go.
  ghost predicate RemovingShaped(s: State) {
    forall t :: t in s.removing ==>
      t in s.ids && TaskShape(s.removing[t]) && TreesKnown(s.ids, s.removing[t].trees)
  }

  ghost predicate RunShaped(s: State, r: string)
    requires r in s.runs
  {
    && s.runs[r].task in s.ids && r in s.ids
    && PcKnown(s.ids, s.runs[r].pc)
    && (s.runs[r].task in s.tasks ==> PcShape(s.tasks[s.runs[r].task], r, s.runs[r].pc))
  }

  ghost predicate Staged(s: State) {
    TasksShaped(s) && RemovingShaped(s) && forall r :: r in s.runs ==> RunShaped(s, r)
  }

  // ---- what a reader wants from it ----

  // No stage is shared by two runs.
  lemma {:induction false} StageBelongsToOneRun(s: State, task: string, i: nat, j: nat)
    requires Staged(s) && task in s.tasks
    requires i < |s.tasks[task].trees| && j < |s.tasks[task].trees|
    requires s.tasks[task].trees[i].stage == s.tasks[task].trees[j].stage
    ensures s.tasks[task].trees[i].run == s.tasks[task].trees[j].run
  {
    assert TaskShape(s.tasks[task]);
  }

  // When the workers of a stage are done, every subtask of the stage is finished.
  lemma {:induction false} JoinedStageIsFinished(s: State, run: string)
    requires Staged(s) && Joinable(s, run) && s.runs[run].task in s.tasks
    ensures var trees := s.tasks[s.runs[run].task].trees;
      forall i :: 0 <= i < |trees| && trees[i].stage == s.runs[run].pc.stage ==> trees[i].status.Finished?
  {
    var k, pc := s.tasks[s.runs[run].task], s.runs[run].pc;
    assert PcShape(k, run, pc);
    forall i | 0 <= i < |k.trees| && k.trees[i].stage == pc.stage
      ensures k.trees[i].status.Finished?
    {
      var w :| 0 <= w < |pc.workers| && pc.workers[w].tree == k.trees[i].id;
      assert pc.workers[w].pc.Done?;
    }
  }

  // ---- edits of one task ----

  // k1 differs from k only in flags and in the status of subtasks; a subtask
  // becomes Running only if its id is in `restarted`.
  ghost predicate StatusEdit(k: Task, k1: Task, restarted: set<string>) {
    && k1.forest == k.forest && k1.maxTrees == k.maxTrees && k1.openedBy == k.openedBy
    && |k1.trees| == |k.trees|
    && (forall i :: 0 <= i < |k.trees| ==>
        && k1.trees[i] == k.trees[i].(status := k1.trees[i].status)
        && (k1.trees[i].status == k.trees[i].status || k1.trees[i].status.Finished? || k.trees[i].id in restarted))
  }

  lemma {:induction false} StatusEditKeepsTask(k: Task, k1: Task, restarted: set<string>)
    requires TaskShape(k) && StatusEdit(k, k1, restarted)
    requires forall i :: 0 <= i < |k.trees| && k.trees[i].id in restarted ==> NoValidation(k.trees, k.trees[i].stage)
    ensures TaskShape(k1)
  {
    forall n: nat
      ensures Ordinary(k1.trees, n) <= k1.maxTrees
    {
      OrdinaryAgrees(k.trees, k1.trees, n);
      assert Ordinary(k.trees, n) <= k.maxTrees;
    }
    assert DistinctIds(k1.trees);
  }

  lemma {:induction false} StatusEditKeepsPc(k: Task, k1: Task, restarted: set<string>, run: string, pc: Pc)
    requires PcShape(k, run, pc) && StatusEdit(k, k1, restarted)
    requires pc.Forking? ==> forall w :: 0 <= w < |pc.workers| && Over(pc.workers[w].pc) ==>
      pc.workers[w].tree !in restarted
    ensures PcShape(k1, run, pc)
  {
    if pc.Forking? {
      OrdinaryAgrees(k.trees, k1.trees, pc.stage);
    }
  }

  // AddTree for a subtask of an opened stage.
  ghost predicate MayAdd(k: Task, t: Tree) {
    && 1 <= t.stage <= |k.openedBy| && t.run == k.openedBy[t.stage - 1]
    && NoValidation(k.trees, t.stage)
    && (forall i :: 0 <= i < |k.trees| ==> k.trees[i].id != t.id)
    && (if t.validation
        then forall i :: 0 <= i < |k.trees| && k.trees[i].stage == t.stage ==> k.trees[i].status.Finished?
        else Ordinary(k.trees, t.stage) < k.maxTrees)
  }

  lemma {:induction false} AddKeepsTask(k: Task, t: Tree)
    requires TaskShape(k) && MayAdd(k, t)
    ensures TaskShape(k.(trees := k.trees + [t]))
  {
    var k1 := k.(trees := k.trees + [t]);
    forall n: nat
      ensures Ordinary(k1.trees, n) <= k1.maxTrees
    {
      OrdinaryAppend(k.trees, t, n);
      assert Ordinary(k.trees, n) <= k.maxTrees;
    }
    assert forall i :: 0 <= i < |k.trees| ==> k1.trees[i] == k.trees[i];
    assert DistinctIds(k1.trees);
  }

  lemma {:induction false} AddKeepsOtherPc(k: Task, t: Tree, run: string, pc: Pc)
    requires PcShape(k, run, pc) && MayAdd(k, t) && t.run != run
    requires pc.Forking? ==> forall w :: 0 <= w < |pc.workers| ==> pc.workers[w].tree != t.id
    ensures PcShape(k.(trees := k.trees + [t]), run, pc)
  {
    if pc.Forking? {
      OrdinaryAppend(k.trees, t, pc.stage);
    }
  }

  lemma {:induction false} OpenKeepsTask(k: Task, run: string)
    requires TaskShape(k)
    ensures TaskShape(OpenStage(k, run))
  {
  }

  lemma {:induction false} OpenKeepsOtherPc(k: Task, opener: string, run: string, pc: Pc)
    requires PcShape(k, run, pc)
    ensures PcShape(OpenStage(k, opener), run, pc)
  {
  }

  // ---- edits of the whole state ----

  // Replace task `task` by k1; every other live run of the task keeps its shape.
  lemma {:induction false} TaskUpdateKeepsStages(s: State, task: string, k1: Task, except: set<string>)
    requires TasksShaped(s) && task in s.ids
    requires forall r :: r in s.runs && r !in except ==> RunShaped(s, r)
    requires TaskShape(k1) && TreesKnown(s.ids, k1.trees)
    requires forall r :: r in s.runs && r !in except && s.runs[r].task == task ==> PcShape(k1, r, s.runs[r].pc)
    ensures TasksShaped(WithTask(s, task, k1))
    ensures forall r :: r in s.runs && r !in except ==> RunShaped(WithTask(s, task, k1), r)
  {
  }

  lemma {:induction false} EditKeepsStages(s: State, task: string, k1: Task)
    requires Staged(s) && task in s.tasks && StatusEdit(s.tasks[task], k1, {})
    ensures Staged(WithTask(s, task, k1))
  {
    var k := s.tasks[task];
    StatusEditKeepsTask(k, k1, {});
    forall r | r in s.runs && s.runs[r].task == task
      ensures PcShape(k1, r, s.runs[r].pc)
    {
      StatusEditKeepsPc(k, k1, {}, r, s.runs[r].pc);
    }
    TaskUpdateKeepsStages(s, task, k1, {});
    assert forall r :: r in s.runs ==> RunShaped(WithTask(s, task, k1), r);
  }

  lemma {:induction false} PcKeepsStages(s: State, run: string, pc: Pc)
    requires TasksShaped(s) && RemovingShaped(s) && run in s.runs
    requires s.runs[run].task in s.ids && run in s.ids
    requires forall r :: r in s.runs && r != run ==> RunShaped(s, r)
    requires PcKnown(s.ids, pc)
    requires s.runs[run].task in s.tasks ==> PcShape(s.tasks[s.runs[run].task], run, pc)
    ensures Staged(WithPc(s, run, pc))
  {
    var s1 := WithPc(s, run, pc);
    forall r | r in s1.runs
      ensures RunShaped(s1, r)
    {
      if r != run {
        assert RunShaped(s, r);
      }
    }
  }

  // ---- every step keeps the discipline ----

  lemma {:induction false} MoveKeepsPc(k: Task, run: string, pc: Pc, w: nat, to: WorkerPc)
    requires pc.Forking? && w < |pc.workers| && PcShape(k, run, pc)
    requires Over(to) ==> forall i :: 0 <= i < |k.trees| && k.trees[i].id == pc.workers[w].tree ==>
      k.trees[i].status.Finished?
    ensures PcShape(k, run, MoveWorker(pc, w, to))
  {
    var pc1 := MoveWorker(pc, w, to);
    assert forall v :: 0 <= v < |pc.workers| ==> pc1.workers[v].tree == pc.workers[v].tree;
    forall id | id in WorkerIds(pc.workers)
      ensures id in WorkerIds(pc1.workers)
    {
      var v :| 0 <= v < |pc.workers| && pc.workers[v].tree == id;
      assert pc1.workers[v].tree == id;
    }
  }

  lemma {:induction false} MovedWorkerKeepsStages(s: State, run: string, pc: Pc, w: nat, to: WorkerPc)
    requires Staged(s) && run in s.runs && s.runs[run].pc.Forking? && w < |s.runs[run].pc.workers|
    requires Over(to) && s.runs[run].task in s.tasks ==>
      forall i :: 0 <= i < |s.tasks[s.runs[run].task].trees| ==>
        s.tasks[s.runs[run].task].trees[i].id == s.runs[run].pc.workers[w].tree ==>
        s.tasks[s.runs[run].task].trees[i].status.Finished?
    requires pc.Forking? && pc.stage == s.runs[run].pc.stage && pc.rest == s.runs[run].pc.rest
    requires pc.workers == MoveWorker(s.runs[run].pc, w, to).workers
    ensures Staged(WithPc(s, run, pc))
  {
    var r := s.runs[run];
    assert RunShaped(s, run);
    if r.task in s.tasks {
      var pc1 := MoveWorker(r.pc, w, to);
      MoveKeepsPc(s.tasks[r.task], run, r.pc, w, to);
      assert PcShape(s.tasks[r.task], run, pc1);
      assert pc.workers == pc1.workers && pc.stage == pc1.stage && pc.rest == pc1.rest;
    }
    PcKeepsStages(s, run, pc);
  }

  lemma {:induction false} FinishTreeKeepsStages(s: State, task: string, tree: string)
    requires Staged(s)
    ensures Staged(UpdateTree(s, task, tree, Finished))
    ensures task in s.tasks ==>
      forall i :: 0 <= i < |UpdateTree(s, task, tree, Finished).tasks[task].trees| ==>
        UpdateTree(s, task, tree, Finished).tasks[task].trees[i].id == tree ==>
        UpdateTree(s, task, tree, Finished).tasks[task].trees[i].status.Finished?
  {
    if task in s.tasks {
      var k := s.tasks[task];
      SetStatusPointwise(k.trees, tree, Finished);
      EditKeepsStages(s, task, k.(trees := SetTreeStatus(k.trees, tree, Finished)));
    }
  }

  lemma {:induction false} CancelsDoNotMatter(s: State, cancels: map<string, Handle>)
    requires Staged(s)
    ensures Staged(s.(cancels := cancels))
  {
    var s1 := s.(cancels := cancels);
    assert forall r :: r in s.runs ==> RunShaped(s, r) ==> RunShaped(s1, r);
  }

  lemma {:induction false} NewIdKeepsStages(s: State, id: string)
    requires Staged(s)
    ensures Staged(s.(ids := s.ids + {id}))
  {
    var s1 := s.(ids := s.ids + {id});
    assert forall r :: r in s.runs ==> RunShaped(s, r) ==> RunShaped(s1, r);
  }

  // No other run has a worker for a subtask of this run's stage.
  lemma {:induction false} OtherWorkersElsewhere(k: Task, run: string, pc: Pc, w: nat, other: string, opc: Pc)
    requires pc.Forking? && w < |pc.workers| && PcShape(k, run, pc)
    requires PcShape(k, other, opc) && other != run
    requires HasTree(k.trees, pc.workers[w].tree)
    ensures opc.Forking? ==> forall v :: 0 <= v < |opc.workers| ==> opc.workers[v].tree != pc.workers[w].tree
  {
    var i :| 0 <= i < |k.trees| && k.trees[i].id == pc.workers[w].tree;
    assert k.trees[i].stage == pc.stage;
  }

  lemma {:induction false} RestartedTree(k: Task, run: string, pc: Pc, w: nat)
    requires TaskShape(k) && pc.Forking? && w < |pc.workers| && PcShape(k, run, pc)
    ensures var k1 := k.(trees := SetTreeStatus(k.trees, pc.workers[w].tree, Running));
      StatusEdit(k, k1, {pc.workers[w].tree}) && TaskShape(k1)
  {
    var tree := pc.workers[w].tree;
    SetStatusPointwise(k.trees, tree, Running);
    StatusEditKeepsTask(k, k.(trees := SetTreeStatus(k.trees, tree, Running)), {tree});
  }

  lemma {:induction false} RestartedTreeKeepsPc(k: Task, run: string, pc: Pc, w: nat, other: string, opc: Pc)
    requires TaskShape(k) && pc.Forking? && w < |pc.workers| && pc.workers[w].pc.Holding? && PcShape(k, run, pc)
    requires PcShape(k, other, opc) && (other == run ==> opc == pc)
    requires HasTree(k.trees, pc.workers[w].tree)
    ensures PcShape(k.(trees := SetTreeStatus(k.trees, pc.workers[w].tree, Running)), other, opc)
  {
    var tree := pc.workers[w].tree;
    RestartedTree(k, run, pc, w);
    if other != run {
      OtherWorkersElsewhere(k, run, pc, w, other, opc);
    }
    StatusEditKeepsPc(k, k.(trees := SetTreeStatus(k.trees, tree, Running)), {tree}, other, opc);
  }

  lemma {:induction false} RestartTreeKeepsStages(s: State, run: string, w: nat)
    requires Staged(s) && AtWorker(s, run, w, Holding)
    requires s.runs[run].task in s.tasks
    requires HasTree(s.tasks[s.runs[run].task].trees, s.runs[run].pc.workers[w].tree)
    ensures Staged(UpdateTree(s, s.runs[run].task, s.runs[run].pc.workers[w].tree, Running))
  {
    var r := s.runs[run];
    var k, tree := s.tasks[r.task], r.pc.workers[w].tree;
    var k1 := k.(trees := SetTreeStatus(k.trees, tree, Running));
    assert RunShaped(s, run);
    RestartedTree(k, run, r.pc, w);
    forall o | o in s.runs && s.runs[o].task == r.task
      ensures PcShape(k1, o, s.runs[o].pc)
    {
      assert RunShaped(s, o);
      RestartedTreeKeepsPc(k, run, r.pc, w, o, s.runs[o].pc);
    }
    TaskUpdateKeepsStages(s, r.task, k1, {});
  }

  lemma {:induction false} StartTreeKeepsStages(s: State, run: string, w: nat)
    requires Staged(s) && AtWorker(s, run, w, Holding)
    ensures Staged(StartTreeStep(s, run, w))
  {
    var r := s.runs[run];
    var tree := r.pc.workers[w].tree;
    if r.task in s.tasks && HasTree(s.tasks[r.task].trees, tree) {
      RestartTreeKeepsStages(s, run, w);
      var s1 := UpdateTree(s, r.task, tree, Running);
      CancelsDoNotMatter(s1, s1.cancels[TreeKey(r.task, tree) := TreeContext(run, tree)]);
      var s2 := s1.(cancels := s1.cancels[TreeKey(r.task, tree) := TreeContext(run, tree)]);
      MovedWorkerKeepsStages(s2, run, MoveWorker(r.pc, w, Executing), w, Executing);
    } else {
      MovedWorkerKeepsStages(s, run, MoveWorker(r.pc, w, Returned), w, Returned);
    }
  }

  lemma {:induction false} TreeReturnedKeepsStages(s: State, run: string, w: nat)
    requires Staged(s) && AtWorker(s, run, w, Executing)
    ensures Staged(TreeReturnedStep(s, run, w))
  {
    var r := s.runs[run];
    var tree := r.pc.workers[w].tree;
    FinishTreeKeepsStages(s, r.task, tree);
    var s1 := UpdateTree(s, r.task, tree, Finished);
    CancelsDoNotMatter(s1, s1.cancels - {TreeKey(r.task, tree)});
    MovedWorkerKeepsStages(s1.(cancels := s1.cancels - {TreeKey(r.task, tree)}), run, MoveWorker(r.pc, w, Returned),
      w, Returned);
  }

  lemma {:induction false} AbortKeepsStages(s: State, run: string, w: nat)
    requires Staged(s) && AtWorker(s, run, w, Waiting)
    ensures Staged(AbortStep(s, run, w))
  {
    var r := s.runs[run];
    var tree := r.pc.workers[w].tree;
    FinishTreeKeepsStages(s, r.task, tree);
    MovedWorkerKeepsStages(UpdateTree(s, r.task, tree, Finished), run, MoveWorker(r.pc, w, Done), w, Done);
  }

  lemma {:induction false} SlotsKeepStages(s: State, run: string, w: nat)
    requires Staged(s)
    ensures AtWorker(s, run, w, Waiting) ==> Staged(AcquireStep(s, run, w))
    ensures AtWorker(s, run, w, Returned) ==> Staged(ReleaseStep(s, run, w))
  {
    if AtWorker(s, run, w, Waiting) {
      var pc := MoveWorker(s.runs[run].pc, w, Holding);
      MovedWorkerKeepsStages(s, run, pc.(slots := pc.slots + 1), w, Holding);
    }
    if AtWorker(s, run, w, Returned) {
      var pc := MoveWorker(s.runs[run].pc, w, Done);
      assert RunShaped(s, run);
      MovedWorkerKeepsStages(s, run, if pc.slots > 0 then pc.(slots := pc.slots - 1) else pc, w, Done);
    }
  }

  lemma {:induction false} SpawnMatches(trees: seq<Tree>, stage: nat, workers: seq<Worker>, t: Tree)
    requires WorkersMatch(trees, stage, workers) && t.stage == stage
    requires forall i :: 0 <= i < |trees| ==> trees[i].id != t.id
    requires forall w :: 0 <= w < |workers| ==> workers[w].tree != t.id
    ensures WorkersMatch(trees + [t], stage, workers + [Worker(t.id, Waiting)])
  {
    var more := workers + [Worker(t.id, Waiting)];
    assert more[|workers|].tree == t.id;
    forall id | id in WorkerIds(workers)
      ensures id in WorkerIds(more)
    {
      var v :| 0 <= v < |workers| && workers[v].tree == id;
      assert more[v].tree == id;
    }
  }

  lemma {:induction false} SpawnKeepsPc(k: Task, run: string, pc: Pc, t: Tree)
    requires PcShape(k, run, pc) && pc.Forking? && pc.rest > 0
    requires t.stage == pc.stage && !t.validation && MayAdd(k, t)
    requires forall w :: 0 <= w < |pc.workers| ==> pc.workers[w].tree != t.id
    ensures PcShape(k.(trees := k.trees + [t]), run,
                    pc.(rest := pc.rest - 1, workers := pc.workers + [Worker(t.id, Waiting)]))
  {
    OrdinaryAppend(k.trees, t, pc.stage);
    SpawnMatches(k.trees, pc.stage, pc.workers, t);
  }

  // AddTree keeps every other run of the task in shape.
  lemma {:induction false} AddTreeKeepsOthers(s: State, run: string, t: Tree)
    requires Staged(s) && run in s.runs && s.runs[run].task in s.tasks
    requires t.run == run && t.id !in s.ids && MayAdd(s.tasks[s.runs[run].task], t)
    ensures var s1 := AddTree(s, s.runs[run].task, t).(ids := s.ids + {t.id});
      TasksShaped(s1) && forall r :: r in s1.runs && r != run ==> RunShaped(s1, r)
  {
    var task := s.runs[run].task;
    var k := s.tasks[task];
    NewIdKeepsStages(s, t.id);
    var s0 := s.(ids := s.ids + {t.id});
    AddKeepsTask(k, t);
    forall r | r in s.runs && r != run && s.runs[r].task == task
      ensures PcShape(k.(trees := k.trees + [t]), r, s.runs[r].pc)
    {
      assert RunShaped(s, r);
      AddKeepsOtherPc(k, t, r, s.runs[r].pc);
    }
    TaskUpdateKeepsStages(s0, task, k.(trees := k.trees + [t]), {run});
  }

  // The spawning run itself, while its task still exists.
  lemma {:induction false} SpawnShapes(s: State, run: string, tree: string)
    requires Staged(s) && Enabled(s, Fork(run, tree)) && s.runs[run].task in s.tasks
    ensures var r := s.runs[run];
      var t, k := Tree(tree, r.pc.stage, false, Running, run), s.tasks[r.task];
      && MayAdd(k, t)
      && PcShape(k.(trees := k.trees + [t]), run,
                 r.pc.(rest := r.pc.rest - 1, workers := r.pc.workers + [Worker(tree, Waiting)]))
  {
    var r := s.runs[run];
    assert RunShaped(s, run);
    SpawnKeepsPc(s.tasks[r.task], run, r.pc, Tree(tree, r.pc.stage, false, Running, run));
  }

  lemma {:induction false} SpawnIsKnown(s: State, run: string, tree: string)
    requires Staged(s) && Enabled(s, Fork(run, tree))
    ensures run in s.ids && s.runs[run].task in s.ids
    ensures PcKnown(s.ids + {tree}, s.runs[run].pc.(
      rest := s.runs[run].pc.rest - 1, workers := s.runs[run].pc.workers + [Worker(tree, Waiting)]))
  {
    assert RunShaped(s, run);
  }

  lemma {:induction false} SpawnKeepsOthers(s: State, run: string, tree: string)
    requires Staged(s) && Enabled(s, Fork(run, tree))
    ensures var r := s.runs[run];
      var s1 := AddTree(s, r.task, Tree(tree, r.pc.stage, false, Running, run)).(ids := s.ids + {tree});
      TasksShaped(s1) && forall o :: o in s1.runs && o != run ==> RunShaped(s1, o)
  {
    var r := s.runs[run];
    if r.task in s.tasks {
      SpawnShapes(s, run, tree);
      AddTreeKeepsOthers(s, run, Tree(tree, r.pc.stage, false, Running, run));
    } else {
      NewIdKeepsStages(s, tree);
    }
  }

  lemma {:induction false} SpawnKeepsStages(s: State, run: string, tree: string)
    requires Staged(s) && Enabled(s, Fork(run, tree))
    ensures Staged(SpawnTree(s, run, tree))
  {
    var r := s.runs[run];
    SpawnKeepsOthers(s, run, tree);
    SpawnIsKnown(s, run, tree);
    if r.task in s.tasks {
      SpawnShapes(s, run, tree);
    }
    SpawnStaged(s, AddTree(s, r.task, Tree(tree, r.pc.stage, false, Running, run)).(ids := s.ids + {tree}), run,
                r.pc.(rest := r.pc.rest - 1, workers := r.pc.workers + [Worker(tree, Waiting)]), tree);
  }

  lemma {:induction false} SpawnStaged(s: State, s1: State, run: string, pc: Pc, tree: string)
    requires run in s.runs && s.runs[run].pc.Forking? && s.runs[run].pc.rest > 0
    requires s1 ==
      AddTree(s, s.runs[run].task, Tree(tree, s.runs[run].pc.stage, false, Running, run)).(ids := s.ids + {tree})
    requires pc ==
      s.runs[run].pc.(rest := s.runs[run].pc.rest - 1, workers := s.runs[run].pc.workers + [Worker(tree, Waiting)])
    requires TasksShaped(s1) && RemovingShaped(s1) && s1.runs[run].task in s1.ids && run in s1.ids
    requires forall r :: r in s1.runs && r != run ==> RunShaped(s1, r)
    requires PcKnown(s1.ids, pc)
    requires s1.runs[run].task in s1.tasks ==> PcShape(s1.tasks[s1.runs[run].task], run, pc)
    ensures Staged(SpawnTree(s, run, tree))
  {
    PcKeepsStages(s1, run, pc);
  }

  lemma {:induction false} ForkKeepsStages(s: State, run: string, tree: string)
    requires Staged(s) && Enabled(s, Fork(run, tree))
    ensures Staged(ForkStep(s, run, tree))
  {
    if Interrupted(s, run) {
      assert RunShaped(s, run);
      PcKeepsStages(s, run, s.runs[run].pc.(rest := 0));
    } else {
      SpawnKeepsStages(s, run, tree);
    }
  }

  lemma {:induction false} ExitKeepsStages(s: State, run: string)
    requires Staged(s) && run in s.runs
    ensures Staged(ExitRun(s, run))
  {
    var s1 := ExitRun(s, run);
    assert forall r :: r in s1.runs ==> RunShaped(s, r) ==> RunShaped(s1, r);
  }

  lemma {:induction false} QuitKeepsStages(s: State, run: string)
    requires Staged(s) && run in s.runs
    ensures Staged(QuitFinished(s, run)) && Staged(QuitPaused(s, run))
  {
    var task := s.runs[run].task;
    if task in s.tasks {
      EditKeepsStages(s, task, MarkFinished(s.tasks[task]));
      EditKeepsStages(s, task, MarkPaused(s.tasks[task]));
    }
    ExitKeepsStages(s, run);
    ExitKeepsStages(FinishTask(s, task), run);
    ExitKeepsStages(PauseTask(s, task), run);
  }

  lemma {:induction false} EnterStageKeepsStages(s: State, run: string, planned: nat)
    requires Staged(s) && run in s.runs && s.runs[run].task in s.tasks
    ensures Staged(EnterStage(s, run, planned))
  {
    var task := s.runs[run].task;
    var k := s.tasks[task];
    var k1 := OpenStage(k, run);
    var pc := Forking(k.forest + 1, Min(planned, k.maxTrees), [], 0);
    assert RunShaped(s, run);
    OpenKeepsTask(k, run);
    OpenedStageIsEmpty(k, run, pc);
    OpenKeepsOthers(s, run);
    PcKeepsStages(WithTask(s, task, k1), run, pc);
  }

  lemma {:induction false} OpenKeepsOthers(s: State, run: string)
    requires Staged(s) && run in s.runs && s.runs[run].task in s.tasks
    ensures var task := s.runs[run].task;
      Staged(WithTask(s, task, OpenStage(s.tasks[task], run)))
  {
    var task := s.runs[run].task;
    var k := s.tasks[task];
    OpenKeepsTask(k, run);
    forall r | r in s.runs && s.runs[r].task == task
      ensures PcShape(OpenStage(k, run), r, s.runs[r].pc)
    {
      assert RunShaped(s, r);
      OpenKeepsOtherPc(k, run, r, s.runs[r].pc);
    }
    TaskUpdateKeepsStages(s, task, OpenStage(k, run), {});
  }

  lemma {:induction false} OpenedStageIsEmpty(k: Task, run: string, pc: Pc)
    requires TaskShape(k) && pc.Forking? && pc.stage == k.forest + 1 && pc.workers == [] && pc.rest <= k.maxTrees
    ensures PcShape(OpenStage(k, run), run, pc)
  {
    OrdinaryAbsent(k.trees, k.forest + 1);
  }

  lemma {:induction false} HeadKeepsStages(s: State, run: string)
    requires Staged(s) && run in s.runs && s.runs[run].pc.AtHead?
    ensures Staged(HeadStep(s, run))
  {
    var plan := s.runs[run].pc.plan;
    if Interrupted(s, run) || PlanNeedsClarification(plan) || plan.finished || plan.trees == 0 {
      QuitKeepsStages(s, run);
    } else if s.runs[run].task in s.tasks {
      EnterStageKeepsStages(s, run, plan.trees);
    } else {
      ExitKeepsStages(s, run);
    }
  }

  lemma {:induction false} ValidateKeepsStages(s: State, run: string, tree: string)
    requires Staged(s) && Enabled(s, Join(run, tree)) && s.runs[run].task in s.tasks
    ensures Staged(Validate(s, run, tree))
  {
    var r := s.runs[run];
    var t := Tree(tree, r.pc.stage, true, Running, run);
    assert RunShaped(s, run);
    JoinedStageIsFinished(s, run);
    AddTreeKeepsOthers(s, run, t);
    var s1 := AddTree(s, r.task, t).(ids := s.ids + {tree});
    var s2 := s1.(cancels := s1.cancels[TreeKey(r.task, tree) := TreeContext(run, tree)]);
    assert forall o :: o in s1.runs && o != run ==> RunShaped(s1, o) ==> RunShaped(s2, o);
    PcKeepsStages(s2, run, Validating(r.pc.stage, tree));
  }

  lemma {:induction false} PlainPcKeepsStages(s: State, run: string, pc: Pc)
    requires Staged(s) && run in s.runs && !pc.Forking? && !pc.Validating?
    ensures Staged(WithPc(s, run, pc))
  {
    assert RunShaped(s, run);
    PcKeepsStages(s, run, pc);
  }

  lemma {:induction false} JoinKeepsStages(s: State, run: string, tree: string)
    requires Staged(s) && Enabled(s, Join(run, tree))
    ensures Staged(JoinStep(s, run, tree))
  {
    QuitKeepsStages(s, run);
    PlainPcKeepsStages(s, run, Deciding(s.runs[run].pc.stage));
    if s.runs[run].task in s.tasks {
      ValidateKeepsStages(s, run, tree);
    }
  }

  lemma {:induction false} ValidatedKeepsStages(s: State, run: string)
    requires Staged(s) && Enabled(s, Validated(run))
    ensures Staged(ValidatedStep(s, run))
  {
    var r := s.runs[run];
    FinishTreeKeepsStages(s, r.task, r.pc.tree);
    var s1 := UpdateTree(s, r.task, r.pc.tree, Finished);
    CancelsDoNotMatter(s1, s1.cancels - {TreeKey(r.task, r.pc.tree)});
    var s2 := s1.(cancels := s1.cancels - {TreeKey(r.task, r.pc.tree)});
    QuitKeepsStages(s2, run);
    PlainPcKeepsStages(s2, run, Deciding(r.pc.stage));
  }

  lemma {:induction false} PanicKeepsStages(s: State, run: string)
    requires Staged(s) && Enabled(s, Panic(run))
    ensures Staged(PanicStep(s, run))
  {
    var r := s.runs[run];
    var cancels := if r.pc.Validating? then s.cancels - {TreeKey(r.task, r.pc.tree)} else s.cancels;
    CancelsDoNotMatter(s, cancels);
    QuitKeepsStages(s.(cancels := cancels), run);
  }

  lemma {:induction false} StartKeepsStages(s: State, task: string, run: string)
    requires Staged(s) && task in s.ids && run !in s.ids
    ensures Staged(StartRun(s, task, run))
  {
    var s1 := StartRun(s, task, run);
    forall r | r in s1.runs
      ensures RunShaped(s1, r)
    {
      if r != run {
        assert RunShaped(s, r);
      }
    }
  }

  lemma {:induction false} CancelKeepsStages(s: State, task: string)
    requires Staged(s)
    ensures Staged(CancelTask(s, task))
  {
    var s1 := CancelTask(s, task);
    assert forall r :: r in s1.runs ==> RunShaped(s, r) ==> RunShaped(s1, r);
  }

  lemma {:induction false} CreateKeepsStages(s: State, task: string, maxTrees: nat, vague: bool, run: string)
    requires Staged(s) && Fresh(s, task) && Fresh(s, run) && task != run
    ensures Staged(CreateStep(s, task, maxTrees, vague, run))
  {
    NewIdKeepsStages(s, task);
    var s0 := s.(ids := s.ids + {task});
    var k := NewTask(maxTrees);
    assert forall r :: r in s0.runs ==> RunShaped(s, r) ==> s0.runs[r].task != task;
    TaskUpdateKeepsStages(s0, task, k, {});
    var s1 := WithTask(s0, task, k);
    EditKeepsStages(s1, task, MarkPaused(k));
    StartKeepsStages(s1, task, run);
  }

  lemma {:induction false} SendKeepsStages(s: State, task: string, run: string)
    requires Staged(s) && task in s.tasks && Fresh(s, run)
    ensures Staged(SendStep(s, task, run))
  {
    EditKeepsStages(s, task, MarkRunning(s.tasks[task]));
    StartKeepsStages(WithTask(s, task, MarkRunning(s.tasks[task])), task, run);
  }

  lemma {:induction false} StopKeepsStages(s: State, task: string)
    requires Staged(s)
    ensures Staged(StopMarkStep(s, task))
  {
    if task in s.tasks { EditKeepsStages(s, task, MarkStopped(s.tasks[task])); }
  }

  // Fewer tasks in memory, and others whose files have yet to go.
  lemma {:induction false} FewerTasksKeepStages(s: State, s1: State)
    requires Staged(s) && RemovingShaped(s1)
    requires s1.runs == s.runs && s1.ids == s.ids && s1.tasks.Keys <= s.tasks.Keys
    requires forall t :: t in s1.tasks ==> s1.tasks[t] == s.tasks[t]
    ensures Staged(s1)
  {
    assert forall r :: r in s1.runs ==> RunShaped(s, r) ==> RunShaped(s1, r);
  }

  lemma {:induction false} SnapshotDoesNotMatter(s: State, snapshot: set<string>)
    requires Staged(s)
    ensures Staged(s.(snapshot := snapshot))
  {
    var s1 := s.(snapshot := snapshot);
    assert forall r :: r in s.runs ==> RunShaped(s, r) ==> RunShaped(s1, r);
  }

  lemma {:induction false} ResumeKeepsStages(s: State, resumed: seq<Resumption>)
    requires Staged(s)
    requires forall i :: 0 <= i < |resumed| ==> resumed[i].task in s.tasks && Fresh(s, resumed[i].run)
    requires forall i, j :: 0 <= i < j < |resumed| ==> resumed[i].run != resumed[j].run
    ensures Staged(ResumeAll(s, resumed))
    decreases |resumed|
  {
    if resumed != [] {
      var first := resumed[0];
      var k := s.tasks[first.task].(status := Running, gardenerStatus := Running);
      EditKeepsStages(s, first.task, k);
      StartKeepsStages(WithTask(s, first.task, k), first.task, first.run);
      ResumeKeepsStages(ResumeOne(s, first), resumed[1..]);
    }
  }

  lemma {:induction false} RestartKeepsStages(s: State, revived: set<string>, resumed: seq<Resumption>)
    requires Staged(s) && Resumes(Reloaded(s, revived), resumed)
    ensures Staged(RestartStep(s, revived, resumed))
  {
    var s0 := Reloaded(s, revived);
    forall t | t in s0.tasks
      ensures TaskShape(s0.tasks[t]) && TreesKnown(s0.ids, s0.tasks[t].trees)
    {
      StatusEditKeepsTask(Found(s)[t], s0.tasks[t], {});
    }
    ResumeKeepsStages(s0, resumed);
  }

  lemma {:induction false} UserStepKeepsStages(s: State, step: Step)
    requires Staged(s) && Enabled(s, step) && !IsRunStep(step)
    requires step.WatchdogVisit? ==> s.snapshot <= s.ids
    ensures Staged(Apply(s, step))
  {
    match step {
      case Create(task, maxTrees, vague, run) => CreateKeepsStages(s, task, maxTrees, vague, run);
      case Send(task, run) => SendKeepsStages(s, task, run);
      case Cancel(task) => CancelKeepsStages(s, task);
      case StopMark(task) => StopKeepsStages(s, task);
      case DeleteEntry(task) => FewerTasksKeepStages(s, DeleteEntryStep(s, task));
      case RemoveFiles(task) => FewerTasksKeepStages(s, RemoveFilesStep(s, task));
      case WatchdogList => SnapshotDoesNotMatter(s, RunningTasks(s));
      case WatchdogSkip(task) => SnapshotDoesNotMatter(s, s.snapshot - {task});
      case WatchdogVisit(task, run) =>
        SnapshotDoesNotMatter(s, s.snapshot - {task});
        StartKeepsStages(s.(snapshot := s.snapshot - {task}), task, run);
      case Restart(revived, resumed) => RestartKeepsStages(s, revived, resumed);
    }
  }

  lemma {:induction false} SlotStepKeepsStages(s: State, step: Step)
    requires Staged(s) && Enabled(s, step) && (step.Acquire? || step.Release?)
    ensures Staged(Apply(s, step))
  {
    SlotsKeepStages(s, step.run, step.worker);
  }

  lemma {:induction false} WorkerStepKeepsStages(s: State, step: Step)
    requires Staged(s) && Enabled(s, step)
    requires step.Acquire? || step.Abort? || step.StartTree? || step.TreeReturned? || step.Release?
    ensures Staged(Apply(s, step))
  {
    if step.Abort? {
      AbortKeepsStages(s, step.run, step.worker);
    } else if step.StartTree? {
      StartTreeKeepsStages(s, step.run, step.worker);
    } else if step.TreeReturned? {
      TreeReturnedKeepsStages(s, step.run, step.worker);
    } else {
      SlotStepKeepsStages(s, step);
    }
  }

  lemma {:induction false} FirstStepsKeepStages(s: State, run: string)
    requires Staged(s) && run in s.runs && !s.runs[run].pc.Forking?
    ensures Staged(BeginStep(s, run)) && Staged(InitDoneStep(s, run))
  {
    ExitKeepsStages(s, run);
    QuitKeepsStages(s, run);
    PlainPcKeepsStages(s, run, Initialising);
    PlainPcKeepsStages(s, run, Planning);
  }

  lemma {:induction false} PlannedKeepsStages(s: State, run: string, plan: Plan)
    requires Staged(s) && run in s.runs && !s.runs[run].pc.Forking?
    ensures Staged(PlanReturnedStep(s, run, plan)) && Staged(DecidedStep(s, run, plan))
  {
    QuitKeepsStages(s, run);
    PlainPcKeepsStages(s, run, AtHead(NormalizePlan(plan)));
  }

  lemma {:induction false} PlanStepKeepsStages(s: State, step: Step)
    requires Staged(s) && Enabled(s, step)
    requires step.Begin? || step.InitDone? || step.PlanReturned? || step.Decided?
    ensures Staged(Apply(s, step))
  {
    if step.Begin? || step.InitDone? {
      FirstStepsKeepStages(s, step.run);
    } else {
      PlannedKeepsStages(s, step.run, step.plan);
    }
  }

  lemma {:induction false} ControlStepKeepsStages(s: State, step: Step)
    requires Staged(s) && Enabled(s, step) && (step.Head? || step.Validated? || step.Panic?)
    ensures Staged(Apply(s, step))
  {
    if step.Head? {
      HeadKeepsStages(s, step.run);
    } else if step.Validated? {
      ValidatedKeepsStages(s, step.run);
    } else {
      PanicKeepsStages(s, step.run);
    }
  }

  lemma {:induction false} RunStepKeepsStages(s: State, step: Step)
    requires Staged(s) && Enabled(s, step) && IsRunStep(step)
    ensures Staged(Apply(s, step))
  {
    if step.Begin? || step.InitDone? || step.PlanReturned? || step.Decided? {
      PlanStepKeepsStages(s, step);
    } else if step.Fork? {
      ForkKeepsStages(s, step.run, step.tree);
    } else if step.Join? {
      JoinKeepsStages(s, step.run, step.tree);
    } else if step.Head? || step.Validated? || step.Panic? {
      ControlStepKeepsStages(s, step);
    } else {
      WorkerStepKeepsStages(s, step);
    }
  }

  lemma {:induction false} StepKeepsStages(s: State, step: Step)
    requires Staged(s) && Enabled(s, step)
    requires step.WatchdogVisit? ==> s.snapshot <= s.ids
    ensures Staged(Apply(s, step))
  {
    if IsRunStep(step) {
      RunStepKeepsStages(s, step);
    } else {
      UserStepKeepsStages(s, step);
    }
  }
}
