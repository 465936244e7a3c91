/** The store as a program. */
module StoreObject {
  import opened Options
  import opened Text
  import opened StoreModel
  import opened StoreSteps
  import opened StoreHistory
  import opened StoreCrash

  class Store {
    var tasks: map<string, Task>
    var disk: map<string, Dir>
    ghost var removing: map<string, Task>

    ghost function Now(): State
      reads this
    {
      State(tasks, disk, removing)
    }

    // Memory and disk agree, half-deleted tasks included.
    ghost predicate Valid()
      reads this
    {
      InStep(Now())
    }

    // NewStore: whatever the directories hold, loading them makes a valid store.
    constructor (files: map<string, Dir>, now: int)
      ensures Valid() && Next(State(map[], files, map[]), Restart(now), Now())
    {
      tasks, disk, removing := map[], files, map[];
      new;
      Load(now);
      RestartGivesInStep(State(map[], files, map[]), now, Now());
    }

    // The files are written one after the other.
    method PersistTask(id: string, t: Task)
      modifies this`disk
      ensures disk == old(disk)[id := Persisted(DirOf(old(disk), id), id, t)]
    {
      ghost var dir := DirOf(disk, id);
      disk := disk[id := DirOf(disk, id).(forestJson := Some(DiskTask(id, t.(messages := [], trees := []), 0, 0)))];
      disk := disk[id := disk[id].(messagesJson := Some(t.messages))];
      for k := 0 to |t.trees|
        invariant disk == old(disk)[id := Torn(dir, id, t, 2 + k, false)]
      {
        OneMoreTree(dir, id, t, k);
        disk := disk[id := disk[id].(trees := disk[id].trees[t.trees[k].id := Some(DiskTree(t.trees[k], 0))])];
      }
      AllFilesWritten(dir, id, t);
    }

    method AddTask(id: string, t: Task)
      modifies this
      ensures Next(old(Now()), Add(id, t), Now()) && tasks == old(tasks)[id := t]
      ensures old(Valid()) && Orderly(old(Now()), Add(id, t)) ==> Valid()
    {
      ghost var s := Now();
      Put(id, t);
      StaysInStep(s, Add(id, t), Now());
    }

    method UpdateTask(id: string, change: Task -> Task, now: int) returns (found: bool)
      modifies this
      ensures found == (id in old(tasks))
      ensures Next(old(Now()), Update(id, change, now), Now())
      ensures found ==> tasks == old(tasks)[id := change(old(tasks)[id]).(updatedAt := now)]
      ensures !found ==> Now() == old(Now())
      ensures old(Valid()) && Orderly(old(Now()), Update(id, change, now)) ==> Valid()
    {
      if id !in tasks { return false; }
      ghost var s := Now();
      var t := change(tasks[id]).(updatedAt := now);
      Put(id, t);
      found := true;
      StaysInStep(s, Update(id, change, now), Now());
    }

    // Everything but persistTaskLocked writes like this: make the directory, then
    // the file.
    method WriteOtherFile(id: string, file: OtherFile)
      modifies this
      ensures Next(old(Now()), WriteOther(id, file), Now())
      ensures tasks == old(tasks) && removing == old(removing) && id in disk
      ensures disk[id].interrupted <==> file == LogLine(true) || (id in old(disk) && old(disk)[id].interrupted)
      ensures old(Valid()) ==> Valid()
    {
      ghost var s := Now();
      var dir := DirOf(disk, id);
      if file == LogLine(true) {
        dir := dir.(interrupted := true);
      }
      disk := disk[id := dir];
      StaysInStep(s, WriteOther(id, file), Now());
    }

    method AppendUsageEvent(id: string, line: string)
      modifies this
      ensures if Blank(line) then Now() == old(Now()) else Next(old(Now()), WriteOther(id, UsageLine), Now())
      ensures old(Valid()) ==> Valid()
    {
      TrimIsEmpty(line);
      if Trim(line) == "" { return; }
      WriteOtherFile(id, UsageLine);
    }

    // The memory half of a log line; the log itself is a TaskLog.
    method NoteLogLine(id: string, now: int) returns (found: bool)
      modifies this
      ensures found == (id in old(tasks))
      ensures Next(old(Now()), Note(id, now), Now())
      ensures disk == old(disk) && tasks.Keys == old(tasks).Keys
      ensures found ==> tasks == old(tasks)[id := old(tasks)[id].(updatedAt := now, lastProgressAt := Some(now))]
      ensures old(Valid()) ==> Valid()
    {
      ghost var s := Now();
      found := id in tasks;
      if found {
        tasks := tasks[id := tasks[id].(lastProgressAt := Some(now), updatedAt := now)];
      }
      StaysInStep(s, Note(id, now), Now());
    }

    // A missing task gets no line in its file; one deleted between the halves does.
    // `interrupted` says whether the line holds the sentence about interrupted runs.
    method AppendGardenerLog(id: string, line: string, interrupted: bool, now: int)
      modifies this
      ensures if Blank(line) || id !in old(tasks) then Now() == old(Now())
        else exists s :: Next(old(Now()), Note(id, now), s) && Next(s, WriteOther(id, LogLine(interrupted)), Now())
      ensures !Blank(line) && id in old(tasks) ==>
        tasks == old(tasks)[id := old(tasks)[id].(updatedAt := now, lastProgressAt := Some(now))]
      ensures old(Valid()) ==> Valid()
    {
      TrimIsEmpty(line);
      if Trim(line) == "" { return; }
      var found := NoteLogLine(id, now);
      if found {
        WriteOtherFile(id, LogLine(interrupted));
      }
    }

    // The progress buffer is part of what `change` updates.
    method AppendTreeProgress(id: string, line: string, change: Task -> Task, now: int)
      modifies this
      ensures if Blank(line) then Now() == old(Now())
        else exists s :: Next(old(Now()), Update(id, change, now), s) && Next(s, WriteOther(id, TreeProgress), Now())
      ensures old(Valid()) && Orderly(old(Now()), Update(id, change, now)) ==> Valid()
    {
      TrimIsEmpty(line);
      if Trim(line) == "" { return; }
      var _ := UpdateTask(id, change, now);
      WriteOtherFile(id, TreeProgress);
    }

    // AppendSchedule and WriteSchedule: a lookup, then a write that does not ask again.
    method WriteSchedule(id: string) returns (found: bool)
      modifies this
      ensures found == (id in old(tasks))
      ensures if found then Next(old(Now()), WriteOther(id, Schedule), Now()) else Now() == old(Now())
      ensures old(Valid()) ==> Valid()
    {
      found := id in tasks;
      if found {
        WriteOtherFile(id, Schedule);
      }
    }

    method ApplySettingsRuntime(settings: Settings, now: int)
      modifies this
      ensures Next(old(Now()), Op.ApplySettings(settings, now), Now())
      ensures old(Valid()) ==> Valid()
    {
      var n := NormalSettings(settings);
      var rest := tasks.Keys;
      ghost var start := Now();
      while rest != {}
        invariant rest <= start.tasks.Keys
        invariant SettingsFrom(start, n, now, start.tasks.Keys - rest, Now())
      {
        var id :| id in rest;
        ghost var before, done := Now(), start.tasks.Keys - rest;
        rest := rest - {id};
        assert start.tasks.Keys - rest == done + {id};
        if !(NormalEngine(tasks[id].engine) == n.engine && NormalMode(tasks[id].modelMode) == n.modelMode) {
          var t := tasks[id].(engine := n.engine, modelMode := n.modelMode, updatedAt := now);
          Put(id, t);
          SettingsSet(start, n, now, done, before, id, Now());
        } else {
          SettingsKept(start, n, now, done, before, id);
        }
      }
      assert start.tasks.Keys - rest == start.tasks.Keys;
      StaysInStep(start, Op.ApplySettings(settings, now), Now());
    }

    // DeleteTask: the entry goes under the lock, the files after it.
    method ForgetTask(id: string) returns (found: bool)
      modifies this
      ensures found == (id in old(tasks))
      ensures Next(old(Now()), Forget(id), Now())
      ensures old(Valid()) ==> Valid()
    {
      ghost var s := Now();
      found := id in tasks;
      if found {
        removing := removing[id := tasks[id]];
        tasks := tasks - {id};
      }
      StaysInStep(s, Forget(id), Now());
    }

    method RemoveTaskFiles(id: string)
      requires id in removing
      modifies this
      ensures Next(old(Now()), RemoveFiles(id), Now())
      ensures old(Valid()) ==> Valid() && Gone(Now(), id)
    {
      ghost var s := Now();
      assert InStep(s) ==> InStepAt(s, id);
      disk := disk - {id};
      removing := removing - {id};
      StaysInStep(s, RemoveFiles(id), Now());
    }

    method DeleteTask(id: string) returns (found: bool)
      modifies this
      ensures found == (id in old(tasks))
      ensures found ==> tasks == old(tasks) - {id} && disk == old(disk) - {id}
      ensures !found ==> Now() == old(Now())
      ensures found ==> Gone(Now(), id)
      ensures old(Valid()) ==> Valid()
    {
      found := ForgetTask(id);
      if found {
        RemoveTaskFiles(id);
      }
    }

    method Load(now: int)
      requires tasks == map[]
      modifies this
      ensures Loaded(old(disk), tasks, disk, now) && removing == old(removing)
    {
      var rest := disk.Keys;
      ghost var start := disk;
      while rest != {}
        invariant rest <= start.Keys && removing == old(removing)
        invariant LoadedFrom(start, start.Keys - rest, tasks, disk, now)
      {
        var name :| name in rest;
        ghost var done := start.Keys - rest;
        rest := rest - {name};
        assert start.Keys - rest == done + {name};
        LoadEntry(name, start, done, now);
      }
      assert start.Keys - rest == start.Keys;
    }

    // One turn of the loop over the directories.
    method LoadEntry(name: string, ghost start: map<string, Dir>, ghost done: set<string>, now: int)
      requires LoadedFrom(start, done, tasks, disk, now) && name in start && name !in done
      modifies this
      ensures LoadedFrom(start, done + {name}, tasks, disk, now) && removing == old(removing)
    {
      NotLoadedYet(start, done, tasks, disk, now, name);
      var dir := disk[name];
      if dir.forestJson.Some? && SafeDiskId(dir.forestJson.value.id) && dir.forestJson.value.id == name {
        var t := LoadTask(dir, now);
        LoadOne(start, done, tasks, disk, now, name, t);
        Put(name, t);
      } else {
        LoadNone(start, done, tasks, disk, now, name);
      }
    }

    // A task into memory and to disk.
    method Put(id: string, t: Task)
      modifies this
      ensures Now() == Saved(old(Now()), id, t)
    {
      tasks := tasks[id := t];
      PersistTask(id, t);
    }

    // What a restart does: the process is gone, a new store reads the disk.
    method RestartStore(now: int)
      modifies this
      ensures Valid() && Next(old(Now()), Restart(now), Now())
    {
      ghost var s := Now();
      tasks, removing := map[], map[];
      Load(now);
      RestartGivesInStep(s, now, Now());
    }
  }

  // ---- loading one task ----

  method LoadTask(dir: Dir, now: int) returns (t: Task)
    requires dir.forestJson.Some?
    ensures TaskLoaded(dir, t, now)
  {
    t := LoadHeader(dir);
    var read := ReadTrees(dir.trees);
    var trees := SortTrees(read);
    var ended := EndTrees(trees, now);
    t := t.(trees := ended);
    TreesEnd(dir.trees, read, trees, ended, now);
  }

  // Everything but the trees, normalized in place.
  method LoadHeader(dir: Dir) returns (t: Task)
    requires dir.forestJson.Some?
    ensures t == Header(dir)
  {
    var d := dir.forestJson.value;
    t := NormalizeForestFields(d.task, d.legacyWave, d.legacyMaxTreesPerWave);
    if dir.messagesJson.Some? { t := t.(messages := dir.messagesJson.value); }
    t := t.(trees := []);
    assert t == ReadHeader(dir);
    t := NormalizeRuntime(t);
    t := LoadStatus(t, dir.interrupted);
  }

  method NormalizeForestFields(t0: Task, legacyWave: int, legacyMaxTreesPerWave: int) returns (t: Task)
    ensures t == t0.(
      forest := if t0.forest == 0 && legacyWave > 0 then legacyWave else t0.forest,
      maxTreesPerForest := if t0.maxTreesPerForest == 0 && legacyMaxTreesPerWave > 0
        then legacyMaxTreesPerWave else t0.maxTreesPerForest)
  {
    t := t0;
    if t.forest == 0 && legacyWave > 0 { t := t.(forest := legacyWave); }
    if t.maxTreesPerForest == 0 && legacyMaxTreesPerWave > 0 {
      t := t.(maxTreesPerForest := legacyMaxTreesPerWave);
    }
  }

  method NormalizeRuntime(t0: Task) returns (t: Task)
    ensures t == Runnable(t0)
  {
    t := t0.(modelMode := NormalMode(t0.modelMode));
    t := t.(engine := CompatibleEngine(t.engine, t.modelMode));
    if Blank(t.scratchPath) { t := t.(scratchPath := t.workspacePath); }
  }

  method LoadStatus(t0: Task, interrupted: bool) returns (t: Task)
    ensures t == Revive(t0, interrupted)
  {
    t := t0.(status := NormalStatus(t0.status), gardenerStatus := NormalStatus(t0.gardenerStatus));
    if t.status == Finished && !t.stopRequested && interrupted {
      t := t.(status := Running, gardenerStatus := Running);
    }
  }

  ghost predicate TreesRead(files: map<string, Option<DiskTree>>, names: set<string>, trees: seq<Tree>) {
    && TreeIds(trees) == (set name | name in names && name in files && ValidTree(name, files[name]))
    && DistinctIds(trees)
    && forall k :: 0 <= k < |trees| ==>
         trees[k].id in files && files[trees[k].id].Some? && trees[k] == WithLegacyWave(files[trees[k].id].value)
  }

  method ReadTrees(files: map<string, Option<DiskTree>>) returns (trees: seq<Tree>)
    ensures TreesRead(files, files.Keys, trees)
  {
    trees := [];
    var rest := files.Keys;
    while rest != {}
      invariant rest <= files.Keys && TreesRead(files, files.Keys - rest, trees)
    {
      var name :| name in rest;
      ghost var seen := files.Keys - rest;
      rest := rest - {name};
      assert files.Keys - rest == seen + {name};
      if files[name].Some? {
        var diskTree := files[name].value;
        if SafeDiskId(diskTree.tree.id) && diskTree.tree.id == name {
          var tr := WithLegacyWave(diskTree);
          TreeIdsGrow(trees, tr);
          trees := trees + [tr];
        }
      }
    }
    assert files.Keys - rest == files.Keys;
  }

  // The same trees in another order.
  ghost predicate Rearranged(a: seq<Tree>, b: seq<Tree>) {
    multiset(a) == multiset(b)
  }

  lemma {:induction false} TreesEnd(files: map<string, Option<DiskTree>>, read: seq<Tree>, sorted: seq<Tree>,
        ended: seq<Tree>, now: int)
    requires TreesRead(files, files.Keys, read) && Rearranged(read, sorted) && Ordered(sorted) && DistinctIds(sorted)
    requires TreeIds(sorted) == TreeIds(read)
    requires |ended| == |sorted| && forall k :: 0 <= k < |sorted| ==> ended[k] == Ended(sorted[k], now)
    ensures TreesLoaded(files, ended, now)
  {
    forall k | 0 <= k < |sorted|
      ensures sorted[k] in read
    {
      assert sorted[k] in multiset(sorted);
    }
    assert TreeIds(ended) == TreeIds(sorted) by {
      assert forall k :: 0 <= k < |ended| ==> ended[k].id == sorted[k].id;
    }
    assert ValidTrees(files) == (set name | name in files.Keys && name in files && ValidTree(name, files[name]));
  }

  // The insertion step of sorting: `sorted` holds the first i trees.
  ghost predicate SortedSoFar(trees: seq<Tree>, i: nat, sorted: seq<Tree>)
    requires i <= |trees|
  {
    && Rearranged(trees[..i], sorted) && Ordered(sorted)
    && (DistinctIds(trees) ==> DistinctIds(sorted) && TreeIds(sorted) == TreeIds(trees[..i]))
  }

  lemma {:induction false} InsertRearranges(a: seq<Tree>, s: seq<Tree>, k: nat, tr: Tree)
    requires Rearranged(a, s) && k <= |s|
    ensures Rearranged(a + [tr], s[..k] + [tr] + s[k..])
  {
    assert s == s[..k] + s[k..];
  }

  lemma {:induction false} InsertKeepsSorted(trees: seq<Tree>, i: nat, sorted: seq<Tree>, k: nat)
    requires i < |trees| && SortedSoFar(trees, i, sorted) && k <= |sorted|
    requires k > 0 ==> Before(sorted[k - 1], trees[i])
    requires forall j :: k <= j < |sorted| ==> Before(trees[i], sorted[j])
    ensures SortedSoFar(trees, i + 1, sorted[..k] + [trees[i]] + sorted[k..])
  {
    assert trees[..i + 1] == trees[..i] + [trees[i]];
    InsertRearranges(trees[..i], sorted, k, trees[i]);
    InsertKeepsOrder(sorted, k, trees[i]);
    if DistinctIds(trees) {
      TreeIdsGrow(trees[..i], trees[i]);
      assert trees[i].id !in TreeIds(trees[..i]);
      InsertKeepsIds(sorted, k, trees[i]);
    }
  }

  method SortTrees(trees: seq<Tree>) returns (sorted: seq<Tree>)
    ensures Rearranged(trees, sorted) && Ordered(sorted)
    ensures DistinctIds(trees) ==> DistinctIds(sorted) && TreeIds(sorted) == TreeIds(trees)
  {
    sorted := [];
    for i := 0 to |trees|
      invariant SortedSoFar(trees, i, sorted)
    {
      var k := |sorted|;
      while k > 0 && !Before(sorted[k - 1], trees[i])
        invariant 0 <= k <= |sorted|
        invariant forall j :: k <= j < |sorted| ==> Before(trees[i], sorted[j])
      {
        k := k - 1;
      }
      InsertKeepsSorted(trees, i, sorted, k);
      sorted := sorted[..k] + [trees[i]] + sorted[k..];
    }
    assert trees[..|trees|] == trees;
  }

  lemma {:induction false} InsertKeepsIds(s: seq<Tree>, k: nat, tr: Tree)
    requires k <= |s| && DistinctIds(s) && tr.id !in TreeIds(s)
    ensures var out := s[..k] + [tr] + s[k..];
      DistinctIds(out) && TreeIds(out) == TreeIds(s) + {tr.id}
  {
    var out := s[..k] + [tr] + s[k..];
    forall j | 0 <= j < |s|
      ensures s[j].id != tr.id && s[j].id in TreeIds(s) && s[j].id in TreeIds(out)
    {
      assert s[j].id in TreeIds(s);
      assert out[if j < k then j else j + 1] == s[j];
    }
    assert out[k] == tr;
    forall j | 0 <= j < |out|
      ensures out[j] == if j < k then s[j] else if j == k then tr else s[j - 1]
    {
    }
  }

  lemma {:induction false} InsertKeepsOrder(s: seq<Tree>, k: nat, tr: Tree)
    requires k <= |s| && Ordered(s)
    requires k > 0 ==> Before(s[k - 1], tr)
    requires forall j :: k <= j < |s| ==> Before(tr, s[j])
    ensures Ordered(s[..k] + [tr] + s[k..])
  {
    var out := s[..k] + [tr] + s[k..];
    forall j | 0 <= j < k
      ensures Before(s[j], tr)
    {
      assert j < k - 1 ==> Before(s[j], s[k - 1]);
    }
    assert forall j :: 0 <= j < |out| ==> out[j] == if j < k then s[j] else if j == k then tr else s[j - 1];
  }

  method EndTrees(trees: seq<Tree>, now: int) returns (ended: seq<Tree>)
    ensures |ended| == |trees| && forall k :: 0 <= k < |trees| ==> ended[k] == Ended(trees[k], now)
  {
    ended := trees;
    for k := 0 to |trees|
      invariant |ended| == |trees|
      invariant forall j :: 0 <= j < |trees| ==> ended[j] == if j < k then Ended(trees[j], now) else trees[j]
    {
      var tr := ended[k].(status := NormalStatus(ended[k].status));
      if tr.status == Running {
        tr := tr.(status := Finished, completedAt := Some(now));
      }
      ended := ended[k := tr];
    }
  }
}
