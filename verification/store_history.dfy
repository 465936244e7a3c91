/** Whole histories of the store: deleted tasks stay deleted, and a restart at any
    point gives back the tasks that were there. */
module StoreHistory {
  import opened Options
  import opened StoreModel
  import opened StoreSteps

  ghost predicate Trace(states: seq<State>, ops: seq<Op>) {
    |states| == |ops| + 1 && forall k :: 0 <= k < |ops| ==> Next(states[k], ops[k], states[k + 1])
  }

  // ---- a deleted task ----

  ghost predicate Gone(s: State, id: string) {
    id !in s.tasks && (id in s.disk ==> s.disk[id].forestJson == None)
  }

  predicate Adds(op: Op, id: string) {
    op.Add? && op.id == id
  }

  // A write of a file other than those of the task itself.
  predicate WritesBeside(op: Op, id: string) {
    op.WriteOther? && op.id == id
  }

  lemma {:induction false} StepKeepsGone(s: State, op: Op, s2: State, id: string)
    requires Next(s, op, s2) && Gone(s, id) && !Adds(op, id)
    ensures Gone(s2, id)
    ensures id !in s.removing ==> id !in s2.removing && (id in s2.disk <==> id in s.disk || WritesBeside(op, id))
  {
  }

  // Nothing but creating the task again brings it back, into memory or into its
  // forest.json; restarts included.
  lemma {:induction false} DeletedStaysGone(states: seq<State>, ops: seq<Op>, id: string, n: nat)
    requires Trace(states, ops) && Gone(states[0], id) && n <= |ops|
    requires forall k :: 0 <= k < |ops| ==> !Adds(ops[k], id)
    ensures Gone(states[n], id)
    decreases n
  {
    if n > 0 {
      DeletedStaysGone(states, ops, id, n - 1);
      StepKeepsGone(states[n - 1], ops[n - 1], states[n], id);
    }
  }

  // Its directory, once removed, is back exactly when some other file was written
  // late: a usage, progress or log line, the schedule, a report, a goal, or the
  // output of an agent.
  lemma {:induction false} DirectoryReturnsExactly(states: seq<State>, ops: seq<Op>, id: string, n: nat)
    requires Trace(states, ops) && Gone(states[0], id) && id !in states[0].disk && id !in states[0].removing
    requires n <= |ops| && forall k :: 0 <= k < |ops| ==> !Adds(ops[k], id)
    ensures id !in states[n].removing && Gone(states[n], id)
    ensures id in states[n].disk <==> exists k :: 0 <= k < n && WritesBeside(ops[k], id)
    decreases n
  {
    if n > 0 {
      DirectoryReturnsExactly(states, ops, id, n - 1);
      StepKeepsGone(states[n - 1], ops[n - 1], states[n], id);
    }
  }

  // A task is deleted, its files are removed, and then a worker that had found it
  // before writes its report, or anyone else one of the other files: the directory
  // is back, without the task.
  lemma {:induction false} LateWriteBringsDirectoryBack(s: State, id: string, file: OtherFile)
    returns (states: seq<State>, ops: seq<Op>)
    requires id in s.tasks && id in s.disk
    ensures Trace(states, ops) && states[0] == s && ops == [Forget(id), RemoveFiles(id), WriteOther(id, file)]
    ensures id !in states[2].tasks && id !in states[2].disk
    ensures id in states[3].disk && Gone(states[3], id)
  {
    var s1 := s.(tasks := s.tasks - {id}, removing := s.removing[id := s.tasks[id]]);
    var s2 := s1.(disk := s1.disk - {id}, removing := s1.removing - {id});
    var s3 := Touched(s2, id, file);
    ops := [Forget(id), RemoveFiles(id), WriteOther(id, file)];
    states := [s, s1, s2, s3];
    assert Next(s, ops[0], s1) && Next(s1, ops[1], s2) && Next(s2, ops[2], s3);
  }

  // ---- memory and disk ----

  ghost predicate Loads(disk: map<string, Dir>, id: string) {
    id in disk && Loadable(id, disk[id])
  }

  // A restart would load the directory exactly when the task is live or
  // half-deleted, and then it mirrors the task.
  ghost predicate InStepAt(s: State, id: string) {
    && !(id in s.tasks && id in s.removing)
    && (Loads(s.disk, id) <==> id in s.tasks || id in s.removing)
    && (id in s.tasks ==> Mirrors(s.disk[id], id, s.tasks[id]))
    && (id in s.removing ==> Mirrors(s.disk[id], id, s.removing[id]))
  }

  ghost predicate InStep(s: State) {
    forall id :: InStepAt(s, id)
  }

  // No tree is dropped from a task, and new trees bring new safe ids.
  ghost predicate TreesGrow(t: Task, t2: Task) {
    WellFormedTrees(t2.trees) && TreeIds(t.trees) <= TreeIds(t2.trees)
  }

  // What the callers of the store do: new tasks have new safe ids.
  ghost predicate Orderly(s: State, op: Op) {
    match op
    case Add(id, t) =>
      StoreModel.SafeDiskId(id) && WellFormedTrees(t.trees) && id !in s.tasks && id !in s.removing && id !in s.disk
    case Update(id, change, at) => id in s.tasks ==> TreesGrow(s.tasks[id], change(s.tasks[id]))
    case _ => true
  }

  // Nothing about `id` has changed.
  ghost predicate SameAt(s: State, s2: State, id: string) {
    && (id in s2.tasks <==> id in s.tasks) && (id in s.tasks ==> s2.tasks[id] == s.tasks[id])
    && (id in s2.removing <==> id in s.removing) && (id in s.removing ==> s2.removing[id] == s.removing[id])
    && (id in s2.disk <==> id in s.disk) && (id in s.disk ==> s2.disk[id] == s.disk[id])
  }

  lemma {:induction false} SameStaysInStep(s: State, s2: State, id: string)
    requires InStepAt(s, id) && SameAt(s, s2, id)
    ensures InStepAt(s2, id)
  {
  }

  // A change to one task only.
  lemma {:induction false} ChangeAt(s: State, s2: State, id: string)
    requires InStep(s) && InStepAt(s2, id)
    requires forall other :: other != id ==> SameAt(s, s2, other)
    ensures InStep(s2)
  {
    forall other
      ensures InStepAt(s2, other)
    {
      if other != id {
        assert InStepAt(s, other);
        SameStaysInStep(s, s2, other);
      }
    }
  }

  lemma {:induction false} SaveKeepsInStep(s: State, id: string, t: Task)
    requires InStep(s) && StoreModel.SafeDiskId(id) && id !in s.removing
    requires WellFormedTrees(t.trees) && ValidTrees(DirOf(s.disk, id).trees) <= TreeIds(t.trees)
    ensures InStep(Saved(s, id, t))
  {
    PersistMirrors(DirOf(s.disk, id), id, t);
    ChangeAt(s, Saved(s, id, t), id);
  }

  // All of a task is in its own files.
  predicate IsOnDisk(dir: Dir, id: string, t: Task) {
    && dir.forestJson == Some(DiskTask(id, t.(messages := [], trees := []), 0, 0))
    && dir.messagesJson == Some(t.messages)
    && forall k :: 0 <= k < |t.trees| ==>
         t.trees[k].id in dir.trees && dir.trees[t.trees[k].id] == Some(DiskTree(t.trees[k], 0))
  }

  // What writing a task leaves alone in its directory.
  predicate OtherFilesKept(before: Dir, after: Dir, t: Task) {
    && after.interrupted == before.interrupted
    && forall name :: name in before.trees && name !in TreeIds(t.trees) ==>
         name in after.trees && after.trees[name] == before.trees[name]
  }

  // A task that is stored: it is in memory, its own files hold all of it, and
  // nothing else has changed, other files in its directory included.
  lemma {:induction false} SavedIsOnDisk(s: State, id: string, t: Task)
    requires WellFormedTrees(t.trees)
    ensures var s1 := Saved(s, id, t);
      && s1.tasks == s.tasks[id := t] && s1.removing == s.removing
      && s1.disk.Keys == s.disk.Keys + {id}
      && (forall other :: other in s.disk && other != id ==> s1.disk[other] == s.disk[other])
      && IsOnDisk(s1.disk[id], id, t)
      && (id in s.disk ==> OtherFilesKept(s.disk[id], s1.disk[id], t))
  {
    WithTreesReads(DirOf(s.disk, id).trees, t.trees);
  }

  lemma {:induction false} UpdateKeepsInStep(s: State, id: string, t: Task)
    requires InStep(s) && id in s.tasks && TreesGrow(s.tasks[id], t)
    ensures InStep(Saved(s, id, t))
  {
    assert InStepAt(s, id);
    SaveKeepsInStep(s, id, t);
  }

  lemma {:induction false} SettingsKeepAt(s: State, settings: Settings, at: int, s2: State, id: string)
    requires InStepAt(s, id) && SettingsApplied(s, settings, at, s2)
    ensures InStepAt(s2, id)
  {
    var n := NormalSettings(settings);
    if id in s.tasks {
      assert SettingsAt(s, n, at, id, s2);
      if !Suits(s.tasks[id], n) {
        PersistMirrors(s.disk[id], id, s2.tasks[id]);
      }
    }
  }

  lemma {:induction false} RestartGivesAt(s: State, at: int, s2: State, id: string)
    requires Next(s, Restart(at), s2)
    ensures InStepAt(s2, id)
  {
    if id in s2.tasks {
      assert LoadedAt(s.disk, id, s2.tasks[id], s2.disk, at);
      LoadedIsWellFormed(s.disk[id], id, s2.tasks[id], at);
      PersistMirrors(s.disk[id], id, s2.tasks[id]);
    }
  }

  // Whatever was there before, after a restart memory and disk agree.
  lemma {:induction false} RestartGivesInStep(s: State, at: int, s2: State)
    requires Next(s, Restart(at), s2)
    ensures InStep(s2)
  {
    forall id
      ensures InStepAt(s2, id)
    {
      RestartGivesAt(s, at, s2, id);
    }
  }

  // After a settings change every task runs with the new settings, and nothing but
  // its engine, mode and time has changed; those that had them are untouched.
  lemma {:induction false} SettingsReachEveryTask(s: State, settings: Settings, at: int, s2: State, id: string)
    requires SettingsApplied(s, settings, at, s2) && id in s.tasks
    ensures id in s2.tasks
    ensures var t, t2 := s.tasks[id], s2.tasks[id];
      var n := NormalSettings(settings);
      && NormalEngine(t2.engine) == n.engine && NormalMode(t2.modelMode) == n.modelMode
      && t2.(engine := t.engine, modelMode := t.modelMode, updatedAt := t.updatedAt) == t
      && (NormalEngine(t.engine) == n.engine && NormalMode(t.modelMode) == n.modelMode ==> t2 == t)
      && (t2 != t ==> t2.engine == n.engine && t2.modelMode == n.modelMode && t2.updatedAt == at)
  {
    assert SettingsAt(s, NormalSettings(settings), at, id, s2);
  }

  // The settings themselves: a known mode, and an engine that can serve it.
  lemma {:induction false} SettingsAreUsable(settings: Settings)
    ensures var n := NormalSettings(settings);
      && n.modelMode in {Default, MiniMax, Kimi} && n.engine in {Codex, Claude}
      && (n.modelMode != Default ==> n.engine == Claude)
      && (settings.modelMode in {Default, MiniMax, Kimi} ==> n.modelMode == settings.modelMode)
      && (settings.engine == Claude || (n.modelMode == Default && settings.engine == Codex) ==>
           n.engine == settings.engine)
  {
  }

  lemma {:induction false} SettingsKeepInStep(s: State, settings: Settings, at: int, s2: State)
    requires InStep(s) && SettingsApplied(s, settings, at, s2)
    ensures InStep(s2)
  {
    forall id
      ensures InStepAt(s2, id)
    {
      assert InStepAt(s, id);
      SettingsKeepAt(s, settings, at, s2, id);
    }
  }

  lemma {:induction false} SmallStepKeepsAt(s: State, op: Op, s2: State)
    requires op.Note? || op.WriteOther? || op.Forget? || op.RemoveFiles?
    requires Next(s, op, s2) && InStepAt(s, op.id)
    ensures InStepAt(s2, op.id)
  {
  }

  lemma {:induction false} SmallStepKeepsInStep(s: State, op: Op, s2: State)
    requires Next(s, op, s2) && InStep(s) && (op.Note? || op.WriteOther? || op.Forget? || op.RemoveFiles?)
    ensures InStep(s2)
  {
    assert InStepAt(s, op.id);
    SmallStepKeepsAt(s, op, s2);
    ChangeAt(s, s2, op.id);
  }

  lemma {:induction false} StepKeepsInStep(s: State, op: Op, s2: State)
    requires Next(s, op, s2) && InStep(s) && Orderly(s, op)
    ensures InStep(s2)
  {
    if op.Add? {
      SaveKeepsInStep(s, op.id, op.task);
    } else if op.Update? {
      if op.id in s.tasks {
        UpdateKeepsInStep(s, op.id, op.change(s.tasks[op.id]).(updatedAt := op.at));
      }
    } else if op.ApplySettings? {
      SettingsKeepInStep(s, op.settings, op.at, s2);
    } else if op.Restart? {
      RestartGivesInStep(s, op.at, s2);
    } else {
      SmallStepKeepsInStep(s, op, s2);
    }
  }

  lemma {:induction false} StaysInStep(s: State, op: Op, s2: State)
    requires Next(s, op, s2)
    ensures InStep(s) && Orderly(s, op) ==> InStep(s2)
  {
    if InStep(s) && Orderly(s, op) {
      StepKeepsInStep(s, op, s2);
    }
  }

  // The tasks a restart would find: the live ones and the half-deleted ones.
  function Known(s: State): map<string, Task> {
    s.removing + s.tasks
  }

  // What a restart from `s` makes of a task that it finds.
  ghost predicate ComesBack(s: State, id: string, t2: Task, now: int) {
    && id in Known(s) && id in s.disk && s.disk[id].forestJson.Some?
    && Restarted(Known(s)[id], s.disk[id].interrupted, t2, now)
    && TimesOf(t2, s.disk[id].forestJson.value.task)
  }

  // A crash between any two steps: every live task comes back as it was, with
  // nothing running in its trees, and so does every task whose deletion had
  // forgotten it but had not begun to remove its files; and no other task.  Only
  // the times of the last change and progress are those of the disk, and a task
  // whose log makes it look interrupted is set running.
  lemma {:induction false} CrashAnywhere(states: seq<State>, ops: seq<Op>, at: int, s2: State)
    requires Trace(states, ops) && InStep(states[0])
    requires forall k :: 0 <= k < |ops| ==> Orderly(states[k], ops[k])
    requires Next(states[|ops|], Restart(at), s2)
    ensures InStep(states[|ops|]) && InStep(s2)
    ensures s2.tasks.Keys == Known(states[|ops|]).Keys
    ensures forall id :: id in s2.tasks ==> ComesBack(states[|ops|], id, s2.tasks[id], at)
  {
    var s := states[|ops|];
    TraceKeepsInStep(states, ops, |ops|);
    RestartGivesInStep(s, at, s2);
    CrashKeepsKeys(s, at, s2);
    forall id | id in s2.tasks
      ensures ComesBack(s, id, s2.tasks[id], at)
    {
      assert InStepAt(s, id);
      CrashRestores(s, at, s2, id);
    }
  }

  lemma {:induction false} CrashKeepsKey(s: State, at: int, s2: State, id: string)
    requires InStepAt(s, id) && Next(s, Restart(at), s2)
    ensures id in s2.tasks <==> id in Known(s)
  {
    assert id in s2.tasks <==> Loads(s.disk, id);
  }

  lemma {:induction false} CrashKeepsKeys(s: State, at: int, s2: State)
    requires InStep(s) && Next(s, Restart(at), s2)
    ensures s2.tasks.Keys == Known(s).Keys
  {
    forall id
      ensures id in s2.tasks <==> id in Known(s)
    {
      CrashKeepsKey(s, at, s2, id);
    }
  }

  lemma {:induction false} CrashRestores(s: State, at: int, s2: State, id: string)
    requires InStepAt(s, id) && Next(s, Restart(at), s2) && id in s2.tasks && id in Known(s)
    ensures ComesBack(s, id, s2.tasks[id], at)
  {
    assert LoadedAt(s.disk, id, s2.tasks[id], s2.disk, at);
    RestartRestores(s.disk[id], id, Known(s)[id], s2.tasks[id], at);
  }

  lemma {:induction false} TraceKeepsInStep(states: seq<State>, ops: seq<Op>, n: nat)
    requires Trace(states, ops) && n <= |ops| && InStep(states[0])
    requires forall k :: 0 <= k < |ops| ==> Orderly(states[k], ops[k])
    ensures InStep(states[n])
    decreases n
  {
    if n > 0 {
      TraceKeepsInStep(states, ops, n - 1);
      StepKeepsInStep(states[n - 1], ops[n - 1], states[n]);
    }
  }

  // ---- log lines are not persisted ----

  // A step that writes none of the task's own files.
  ghost predicate LeavesFiles(s: State, op: Op, id: string) {
    match op
    case Note(_, _) => true
    case WriteOther(_, _) => true
    case ApplySettings(settings, _) => id in s.tasks && Suits(s.tasks[id], NormalSettings(settings))
    case Restart(_) => false
    case _ => op.id != id
  }

  function LastNote(ops: seq<Op>, id: string): Option<int> {
    if ops == [] then None
    else
      var op := ops[|ops| - 1];
      if op.Note? && op.id == id then Some(op.at) else LastNote(ops[..|ops| - 1], id)
  }

  function AfterNote(t: Task, note: Option<int>): Task {
    if note.Some? then Noted(t, note.value) else t
  }

  // Since a state in which memory was `t` and forest.json was `file`, only log
  // lines have changed the task.
  ghost predicate Since(t: Task, file: Option<DiskTask>, note: Option<int>, s: State, id: string) {
    && id in s.tasks && s.tasks[id] == AfterNote(t, note)
    && id in s.disk && s.disk[id].forestJson == file
  }

  lemma {:induction false} StepKeepsSince(t: Task, file: Option<DiskTask>, note: Option<int>, s: State, op: Op,
        s2: State, id: string)
    requires Since(t, file, note, s, id) && Next(s, op, s2) && LeavesFiles(s, op, id)
    ensures Since(t, file, if op.Note? && op.id == id then Some(op.at) else note, s2, id)
  {
    if op.ApplySettings? {
      assert SettingsAt(s, NormalSettings(op.settings), op.at, id, s2);
    }
  }

  lemma {:induction false} TraceKeepsSince(states: seq<State>, ops: seq<Op>, id: string, n: nat, t: Task,
        file: Option<DiskTask>)
    requires Trace(states, ops) && n <= |ops| && Since(t, file, None, states[0], id)
    requires forall k :: 0 <= k < |ops| ==> LeavesFiles(states[k], ops[k], id)
    ensures Since(t, file, LastNote(ops[..n], id), states[n], id)
    decreases n
  {
    if n > 0 {
      TraceKeepsSince(states, ops, id, n - 1, t, file);
      assert ops[..n][..n - 1] == ops[..n - 1];
      StepKeepsSince(t, file, LastNote(ops[..n - 1], id), states[n - 1], ops[n - 1], states[n], id);
    }
  }

  // A restart brings back the times of the last write of the task.  They are those
  // that memory had if and only if no log line has been added since, or the last
  // one bears the same time.
  lemma {:induction false} LogLinesAreForgotten(states: seq<State>, ops: seq<Op>, id: string, at: int, s2: State)
    requires Trace(states, ops) && id in states[0].tasks && id in states[0].disk && Loadable(id, states[0].disk[id])
    requires TimesOf(states[0].tasks[id], states[0].disk[id].forestJson.value.task)
    requires forall k :: 0 <= k < |ops| ==> LeavesFiles(states[k], ops[k], id)
    requires Next(states[|ops|], Restart(at), s2)
    ensures id in s2.tasks && TimesOf(s2.tasks[id], states[0].tasks[id])
    ensures id in states[|ops|].tasks
    ensures TimesOf(s2.tasks[id], states[|ops|].tasks[id]) <==>
      TimesOf(AfterNote(states[0].tasks[id], LastNote(ops, id)), states[0].tasks[id])
  {
    var t, file := states[0].tasks[id], states[0].disk[id].forestJson;
    var s := states[|ops|];
    TraceKeepsSince(states, ops, id, |ops|, t, file);
    assert ops[..|ops|] == ops;
    assert Loads(s.disk, id);
    assert LoadedAt(s.disk, id, s2.tasks[id], s2.disk, at);
    LoadedTimes(s.disk[id], s2.tasks[id], at);
  }
}
