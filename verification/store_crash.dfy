/** A crash inside the writing of a task.  Its files are written one after the
    other, and each write first empties its file. */
module StoreCrash {
  import opened Options
  import opened StoreModel
  import opened StoreSteps
  import opened StoreHistory

  // forest.json, messages.json, and one file for every tree.
  function FileCount(t: Task): nat {
    2 + |t.trees|
  }

  // The trees whose files are among the first `n` files.
  function Done(t: Task, n: nat): seq<Tree>
    requires n <= FileCount(t)
  {
    if n < 2 then [] else t.trees[..n - 2]
  }

  // The directory after `n` files, with the next one unreadable if `broken`.
  function Torn(dir: Dir, id: string, t: Task, n: nat, broken: bool): Dir
    requires n <= FileCount(t) && (broken ==> n < FileCount(t))
  {
    Dir(if n >= 1 then Some(DiskTask(id, t.(messages := [], trees := []), 0, 0))
          else if broken then None else dir.forestJson,
        if n >= 2 then Some(t.messages) else if n == 1 && broken then None else dir.messagesJson,
        TornTrees(dir.trees, t, n, broken),
        dir.interrupted)
  }

  function TornTrees(files: map<string, Option<DiskTree>>, t: Task, n: nat, broken: bool)
      : map<string, Option<DiskTree>>
    requires n <= FileCount(t) && (broken ==> n < FileCount(t))
  {
    if broken && n >= 2 then WithTrees(files, Done(t, n))[t.trees[n - 2].id := None]
    else WithTrees(files, Done(t, n))
  }

  // The tree whose file is unreadable.
  function Lost(t: Task, n: nat, broken: bool): set<string>
    requires broken ==> n < FileCount(t)
  {
    if broken && n >= 2 then {t.trees[n - 2].id} else {}
  }

  lemma {:induction false} AllFilesWritten(dir: Dir, id: string, t: Task)
    ensures Torn(dir, id, t, FileCount(t), false) == Persisted(dir, id, t)
  {
    assert t.trees[..|t.trees|] == t.trees;
  }

  lemma {:induction false} OneMoreTree(dir: Dir, id: string, t: Task, k: nat)
    requires k < |t.trees|
    ensures var torn := Torn(dir, id, t, 2 + k, false);
      Torn(dir, id, t, 3 + k, false) == torn.(trees := torn.trees[t.trees[k].id := Some(DiskTree(t.trees[k], 0))])
  {
    assert t.trees[..k + 1][..k] == t.trees[..k];
  }

  // ---- what a restart finds ----

  // A tree with its file.
  predicate HasFile(files: map<string, Option<DiskTree>>, tr: Tree) {
    tr.id in files && files[tr.id] == Some(DiskTree(tr, 0))
  }

  // A readable file of a tree is loaded.
  lemma {:induction false} FileIsLoaded(files: map<string, Option<DiskTree>>, trees: seq<Tree>, now: int, tr: Tree)
    requires TreesLoaded(files, trees, now) && SafeDiskId(tr.id)
    requires HasFile(files, tr)
    ensures Restores(trees, tr, now) && tr.id in TreeIds(trees)
  {
    assert tr.id in ValidTrees(files);
    var k :| 0 <= k < |trees| && trees[k].id == tr.id;
    assert trees[k] == Ended(tr, now);
    EndedRestores(trees, tr, now);
  }

  // Every tree is there in its new or its old form, but for the lost one.
  ghost predicate TreesSurvive(t: Task, t2: Task, n: nat, broken: bool, trees: seq<Tree>, now: int)
    requires n <= FileCount(t2) && (broken ==> n < FileCount(t2))
  {
    && TreeIds(trees) == TreeIds(t.trees) + TreeIds(Done(t2, n)) - Lost(t2, n, broken)
    && (forall k :: 0 <= k < |Done(t2, n)| ==> Restores(trees, t2.trees[k], now))
    && (forall j :: 0 <= j < |t.trees| && t.trees[j].id !in TreeIds(Done(t2, n)) + Lost(t2, n, broken) ==>
          Restores(trees, t.trees[j], now))
  }

  lemma {:induction false} DoneIsDistinct(t: Task, n: nat, broken: bool)
    requires WellFormedTrees(t.trees) && n <= FileCount(t) && (broken ==> n < FileCount(t))
    ensures WellFormedTrees(Done(t, n)) && TreeIds(Done(t, n)) <= TreeIds(t.trees)
    ensures TreeIds(Done(t, n)) !! Lost(t, n, broken)
  {
    var trees := Done(t, n);
    assert forall k :: 0 <= k < |trees| ==> trees[k] == t.trees[k];
  }

  lemma {:induction false} NewFiles(files: map<string, Option<DiskTree>>, t2: Task, n: nat, broken: bool, k: nat)
    requires WellFormedTrees(t2.trees) && n <= FileCount(t2) && (broken ==> n < FileCount(t2)) && k < |Done(t2, n)|
    ensures HasFile(TornTrees(files, t2, n, broken), t2.trees[k])
  {
    DoneIsDistinct(t2, n, broken);
    WithTreesReads(files, Done(t2, n));
    assert Done(t2, n)[k] == t2.trees[k];
  }

  lemma {:induction false} OldFiles(files: map<string, Option<DiskTree>>, t2: Task, n: nat, broken: bool, tr: Tree)
    requires WellFormedTrees(t2.trees) && n <= FileCount(t2) && (broken ==> n < FileCount(t2))
    requires HasFile(files, tr) && tr.id !in TreeIds(Done(t2, n)) + Lost(t2, n, broken)
    ensures HasFile(TornTrees(files, t2, n, broken), tr)
  {
    DoneIsDistinct(t2, n, broken);
    WithTreesReads(files, Done(t2, n));
  }

  lemma {:induction false} NoFurtherFiles(files: map<string, Option<DiskTree>>, t2: Task, n: nat, broken: bool)
    requires WellFormedTrees(t2.trees) && n <= FileCount(t2) && (broken ==> n < FileCount(t2))
    ensures ValidTrees(TornTrees(files, t2, n, broken)) <=
      ValidTrees(files) + TreeIds(Done(t2, n)) - Lost(t2, n, broken)
  {
    DoneIsDistinct(t2, n, broken);
    WithTreesReads(files, Done(t2, n));
  }

  lemma {:induction false} TornTreesSurvive(dir: Dir, id: string, t: Task, t2: Task, n: nat, broken: bool,
        trees: seq<Tree>, now: int)
    requires Mirrors(dir, id, t) && WellFormedTrees(t2.trees)
    requires n <= FileCount(t2) && (broken ==> n < FileCount(t2))
    requires TreesLoaded(TornTrees(dir.trees, t2, n, broken), trees, now)
    ensures TreesSurvive(t, t2, n, broken, trees, now)
  {
    var files := TornTrees(dir.trees, t2, n, broken);
    NoFurtherFiles(dir.trees, t2, n, broken);
    forall k | 0 <= k < |Done(t2, n)|
      ensures Restores(trees, t2.trees[k], now) && t2.trees[k].id in TreeIds(trees)
    {
      NewFiles(dir.trees, t2, n, broken, k);
      FileIsLoaded(files, trees, now, t2.trees[k]);
    }
    forall j | 0 <= j < |t.trees| && t.trees[j].id !in TreeIds(Done(t2, n)) + Lost(t2, n, broken)
      ensures Restores(trees, t.trees[j], now) && t.trees[j].id in TreeIds(trees)
    {
      OldFiles(dir.trees, t2, n, broken, t.trees[j]);
      FileIsLoaded(files, trees, now, t.trees[j]);
    }
  }

  // The fields of the task are all old or all new, the messages old, new, or lost.
  ghost predicate HeaderSurvives(t: Task, t2: Task, n: nat, broken: bool, interrupted: bool, r: Task) {
    && FieldsComeBack(if n == 0 then t else t2, interrupted, r)
    && r.forest == (if n == 0 then t else t2).forest
    && r.maxTreesPerForest == (if n == 0 then t else t2).maxTreesPerForest
    && r.messages == (if n >= 2 then t2.messages else if n == 1 && broken then [] else t.messages)
  }

  lemma {:induction false} TornHeaderSurvives(dir: Dir, id: string, t: Task, t2: Task, n: nat, broken: bool, r: Task)
    requires Mirrors(dir, id, t) && n <= FileCount(t2) && (broken ==> n < FileCount(t2)) && !(broken && n == 0)
    requires r.(trees := []) == Header(Torn(dir, id, t2, n, broken))
    ensures HeaderSurvives(t, t2, n, broken, dir.interrupted, r)
  {
    var torn := Torn(dir, id, t2, n, broken);
    HeaderComesBack(torn, r);
    assert FieldsComeBack(torn.forestJson.value.task, dir.interrupted, r);
    if n == 0 {
      var file := dir.forestJson.value.task;
      assert file.(updatedAt := t.updatedAt, lastProgressAt := t.lastProgressAt) == t.(messages := [], trees := []);
    }
  }

  // A crash after some files of a task, or inside one.
  ghost predicate Survives(t: Task, t2: Task, n: nat, broken: bool, interrupted: bool, r: Task, now: int)
    requires n <= FileCount(t2) && (broken ==> n < FileCount(t2))
  {
    HeaderSurvives(t, t2, n, broken, interrupted, r) && TreesSurvive(t, t2, n, broken, r.trees, now)
  }

  // The task is lost exactly when the crash falls into the write of forest.json.
  lemma {:induction false} TornIsLoadable(dir: Dir, id: string, t: Task, n: nat, broken: bool)
    requires Loadable(id, dir) && n <= FileCount(t) && (broken ==> n < FileCount(t))
    ensures Loadable(id, Torn(dir, id, t, n, broken)) <==> !(broken && n == 0)
  {
  }

  lemma {:induction false} TornTaskSurvives(dir: Dir, id: string, t: Task, t2: Task, n: nat, broken: bool,
        r: Task, now: int)
    requires Mirrors(dir, id, t) && WellFormedTrees(t2.trees)
    requires n <= FileCount(t2) && (broken ==> n < FileCount(t2)) && !(broken && n == 0)
    requires TaskLoaded(Torn(dir, id, t2, n, broken), r, now)
    ensures Survives(t, t2, n, broken, dir.interrupted, r, now)
  {
    TornHeaderSurvives(dir, id, t, t2, n, broken, r);
    TornTreesSurvive(dir, id, t, t2, n, broken, r.trees, now);
  }

  // ---- a crash inside an update of the store ----

  ghost predicate CrashesInside(s: State, id: string, t2: Task, n: nat, broken: bool, at: int, s2: State) {
    && id in s.tasks && id in s.disk && n <= FileCount(t2) && (broken ==> n < FileCount(t2))
    && Next(s.(disk := s.disk[id := Torn(s.disk[id], id, t2, n, broken)]), Restart(at), s2)
  }

  lemma {:induction false} ComesBackAlike(s: State, s1: State, id: string, t2: Task, at: int)
    requires SameAt(s, s1, id) && ComesBack(s1, id, t2, at)
    ensures ComesBack(s, id, t2, at)
  {
    assert Known(s1)[id] == Known(s)[id] && s1.disk[id] == s.disk[id];
  }

  // A state that agrees with `s` on a task makes the same of it.
  lemma {:induction false} CrashAlike(s: State, s1: State, id: string, at: int, s2: State)
    requires InStepAt(s, id) && SameAt(s, s1, id) && Next(s1, Restart(at), s2)
    ensures id in s2.tasks <==> id in Known(s)
    ensures id in s2.tasks ==> ComesBack(s, id, s2.tasks[id], at)
  {
    SameStaysInStep(s, s1, id);
    CrashKeepsKey(s1, at, s2, id);
    if id in s2.tasks {
      CrashRestores(s1, at, s2, id);
      ComesBackAlike(s, s1, id, s2.tasks[id], at);
    }
  }

  lemma {:induction false} OthersComeBack(s: State, id: string, t2: Task, n: nat, broken: bool, at: int, s2: State,
        other: string)
    requires InStepAt(s, other) && other != id && CrashesInside(s, id, t2, n, broken, at, s2)
    ensures other in s2.tasks <==> other in Known(s)
    ensures other in s2.tasks ==> ComesBack(s, other, s2.tasks[other], at)
  {
    CrashAlike(s, s.(disk := s.disk[id := Torn(s.disk[id], id, t2, n, broken)]), other, at, s2);
  }

  lemma {:induction false} CrashedTask(s: State, id: string, t2: Task, n: nat, broken: bool, at: int, s2: State)
    requires InStepAt(s, id) && CrashesInside(s, id, t2, n, broken, at, s2) && WellFormedTrees(t2.trees)
    ensures id in s2.tasks <==> !(broken && n == 0)
    ensures id in s2.tasks ==> Survives(s.tasks[id], t2, n, broken, s.disk[id].interrupted, s2.tasks[id], at)
  {
    var disk := s.disk[id := Torn(s.disk[id], id, t2, n, broken)];
    TornIsLoadable(s.disk[id], id, t2, n, broken);
    assert id in s2.tasks <==> Loads(disk, id);
    if id in s2.tasks {
      assert LoadedAt(disk, id, s2.tasks[id], s2.disk, at);
      TornTaskSurvives(s.disk[id], id, s.tasks[id], t2, n, broken, s2.tasks[id], at);
    }
  }

  ghost predicate AfterCrash(s: State, id: string, t2: Task, n: nat, broken: bool, at: int, s2: State, other: string)
    requires CrashesInside(s, id, t2, n, broken, at, s2)
  {
    && (other in s2.tasks <==> other in Known(s) && !(other == id && broken && n == 0))
    && (other in s2.tasks ==>
          if other == id then Survives(s.tasks[id], t2, n, broken, s.disk[id].interrupted, s2.tasks[id], at)
          else ComesBack(s, other, s2.tasks[other], at))
  }

  lemma {:induction false} AfterCrashAt(s: State, id: string, t2: Task, n: nat, broken: bool, at: int, s2: State,
        other: string)
    requires InStepAt(s, other) && CrashesInside(s, id, t2, n, broken, at, s2) && WellFormedTrees(t2.trees)
    ensures AfterCrash(s, id, t2, n, broken, at, s2, other)
  {
    if other == id {
      CrashedTask(s, id, t2, n, broken, at, s2);
    } else {
      OthersComeBack(s, id, t2, n, broken, at, s2, other);
    }
  }

  // A crash while a changed task is being written: memory and disk are in step
  // after the restart, every other task comes back as after a crash between two
  // steps, and of this task every file is old or new but for the one that was
  // being written; it is gone if and only if that was its forest.json.
  lemma {:induction false} CrashInsideWrite(s: State, id: string, t2: Task, n: nat, broken: bool, at: int, s2: State)
    requires InStep(s) && CrashesInside(s, id, t2, n, broken, at, s2) && WellFormedTrees(t2.trees)
    ensures InStep(s2)
    ensures forall other :: AfterCrash(s, id, t2, n, broken, at, s2, other)
  {
    RestartGivesInStep(s.(disk := s.disk[id := Torn(s.disk[id], id, t2, n, broken)]), at, s2);
    forall other
      ensures AfterCrash(s, id, t2, n, broken, at, s2, other)
    {
      assert InStepAt(s, other);
      AfterCrashAt(s, id, t2, n, broken, at, s2, other);
    }
  }
}
