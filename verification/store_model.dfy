/** The task store: a map of tasks in memory beside one directory per task on
    disk, and what a restart makes of those directories. */
module StoreModel {
  import opened Options
  import opened Text

  datatype Status = Running | Finished | OtherStatus(name: string)

  datatype ModelMode = Default | MiniMax | Kimi | OtherMode(name: string)

  datatype Engine = Codex | Claude | OtherEngine(name: string)

  // Times are nanoseconds since the epoch; `body` stands for the fields that are
  // only ever changed together with what is on disk.
  datatype Tree = Tree(
    id: string, status: Status, forest: int,
    startedAt: Option<int>, completedAt: Option<int>, updatedAt: int, body: string)

  datatype Task = Task(
    status: Status, gardenerStatus: Status, stopRequested: bool,
    forest: int, maxTreesPerForest: int, modelMode: ModelMode, engine: Engine,
    workspacePath: string, scratchPath: string, updatedAt: int, lastProgressAt: Option<int>,
    messages: seq<string>, trees: seq<Tree>, body: string)

  datatype DiskTree = DiskTree(tree: Tree, legacyWave: int)

  datatype DiskTask = DiskTask(id: string, task: Task, legacyWave: int, legacyMaxTreesPerWave: int)

  // A task's directory.  None stands for a file that is missing or not readable;
  // `interrupted` says that the log holds the sentence by which an old version
  // reported a run that a restart had cut off.
  datatype Dir = Dir(
    forestJson: Option<DiskTask>, messagesJson: Option<seq<string>>, trees: map<string, Option<DiskTree>>,
    interrupted: bool)

  const EMPTY_DIR := Dir(None, None, map[], false)

  // ---- normal forms ----

  // normalizeStatus
  function NormalStatus(s: Status): Status {
    if s == Running || s == Finished then s else Finished
  }

  // normalizeModelMode, on the known modes
  function NormalMode(m: ModelMode): ModelMode {
    if m.OtherMode? then Default else m
  }

  // normalizeCLIEngine, on the known engines
  function NormalEngine(e: Engine): Engine {
    if e.OtherEngine? then Codex else e
  }

  function CompatibleEngine(e: Engine, mode: ModelMode): Engine {
    if NormalMode(mode) in {Kimi, MiniMax} && NormalEngine(e) == Codex then Claude else NormalEngine(e)
  }

  // safeDiskID; it looks at the trimmed id.
  predicate SafeDiskId(id: string) {
    var trimmed := Trim(id);
    trimmed !in {"", ".", ".."} && '/' !in trimmed && '\\' !in trimmed
  }

  const MIN_INT64 := -0x8000_0000_0000_0000
  const MAX_INT64 := 0x7fff_ffff_ffff_ffff

  // safeUnixNano
  function SafeUnixNano(t: int): (nanos: int)
    ensures MIN_INT64 <= nanos <= MAX_INT64
  {
    if t < MIN_INT64 then MIN_INT64 else if t > MAX_INT64 then MAX_INT64 else t
  }

  // Clamping keeps the order of times and is exact on those that fit 64 bits.
  lemma {:induction false} ClampKeepsOrder(a: int, b: int)
    ensures a <= b ==> SafeUnixNano(a) <= SafeUnixNano(b)
    ensures SafeUnixNano(a) == a <==> MIN_INT64 <= a <= MAX_INT64
    ensures SafeUnixNano(a) == SafeUnixNano(b) <==>
      a == b || (a <= MIN_INT64 && b <= MIN_INT64) || (a >= MAX_INT64 && b >= MAX_INT64)
  {
  }

  function CreatedOrder(tr: Tree): int {
    SafeUnixNano(if tr.startedAt.Some? then tr.startedAt.value else tr.updatedAt)
  }

  predicate Before(a: Tree, b: Tree) {
    a.forest < b.forest || (a.forest == b.forest && CreatedOrder(a) <= CreatedOrder(b))
  }

  predicate Ordered(trees: seq<Tree>) {
    forall j, k :: 0 <= j < k < |trees| ==> Before(trees[j], trees[k])
  }

  predicate DistinctIds(trees: seq<Tree>) {
    forall j, k :: 0 <= j < k < |trees| ==> trees[j].id != trees[k].id
  }

  function TreeIds(trees: seq<Tree>): set<string> {
    set k | 0 <= k < |trees| :: trees[k].id
  }

  // ---- what a restart reads ----

  function WithLegacyWave(dt: DiskTree): Tree {
    if dt.tree.forest == 0 && dt.legacyWave > 0 then dt.tree.(forest := dt.legacyWave) else dt.tree
  }

  // No process survives a restart.
  function Ended(tr: Tree, now: int): Tree {
    if NormalStatus(tr.status) == Running then tr.(status := Finished, completedAt := Some(now))
    else tr.(status := NormalStatus(tr.status))
  }

  predicate ValidTree(name: string, file: Option<DiskTree>) {
    file.Some? && SafeDiskId(file.value.tree.id) && file.value.tree.id == name
  }

  function ValidTrees(files: map<string, Option<DiskTree>>): set<string> {
    set name | name in files && ValidTree(name, files[name])
  }

  // The trees a restart makes of the files, in some order that stage and
  // creation time allow.
  predicate TreesLoaded(files: map<string, Option<DiskTree>>, trees: seq<Tree>, now: int) {
    && TreeIds(trees) == ValidTrees(files)
    && DistinctIds(trees)
    && Ordered(trees)
    && forall k :: 0 <= k < |trees| ==>
         trees[k].id in files && files[trees[k].id].Some? &&
           trees[k] == Ended(WithLegacyWave(files[trees[k].id].value), now)
  }

  predicate Loadable(name: string, dir: Dir) {
    dir.forestJson.Some? && SafeDiskId(dir.forestJson.value.id) && dir.forestJson.value.id == name
  }

  // A task that is taken for one of those runs.
  predicate Revived(t: Task, interrupted: bool) {
    NormalStatus(t.status) == Finished && !t.stopRequested && interrupted
  }

  function Revive(t: Task, interrupted: bool): Task {
    if Revived(t, interrupted) then t.(status := Running, gardenerStatus := Running)
    else t.(status := NormalStatus(t.status), gardenerStatus := NormalStatus(t.gardenerStatus))
  }

  // forest.json and messages.json, with the names an old version used.
  function ReadHeader(dir: Dir): Task
    requires dir.forestJson.Some?
  {
    var d := dir.forestJson.value;
    d.task.(
      forest := if d.task.forest == 0 && d.legacyWave > 0 then d.legacyWave else d.task.forest,
      maxTreesPerForest := if d.task.maxTreesPerForest == 0 && d.legacyMaxTreesPerWave > 0
        then d.legacyMaxTreesPerWave else d.task.maxTreesPerForest,
      messages := if dir.messagesJson.Some? then dir.messagesJson.value else d.task.messages,
      trees := [])
  }

  function Runnable(t: Task): Task {
    t.(modelMode := NormalMode(t.modelMode),
       engine := CompatibleEngine(t.engine, NormalMode(t.modelMode)),
       scratchPath := if Blank(t.scratchPath) then t.workspacePath else t.scratchPath)
  }

  // The task without its trees.
  function Header(dir: Dir): Task
    requires dir.forestJson.Some?
  {
    Revive(Runnable(ReadHeader(dir)), dir.interrupted)
  }

  predicate TaskLoaded(dir: Dir, t: Task, now: int)
    requires dir.forestJson.Some?
  {
    t.(trees := []) == Header(dir) && TreesLoaded(dir.trees, t.trees, now)
  }

  // ---- what is written ----

  function WithTrees(files: map<string, Option<DiskTree>>, trees: seq<Tree>): map<string, Option<DiskTree>> {
    if trees == [] then files
    else
      var n := |trees| - 1;
      WithTrees(files, trees[..n])[trees[n].id := Some(DiskTree(trees[n], 0))]
  }

  // persistTaskLocked
  function Persisted(dir: Dir, id: string, t: Task): Dir {
    Dir(Some(DiskTask(id, t.(messages := [], trees := []), 0, 0)), Some(t.messages), WithTrees(dir.trees, t.trees),
        dir.interrupted)
  }

  function DirOf(disk: map<string, Dir>, id: string): Dir {
    if id in disk then disk[id] else EMPTY_DIR
  }

  lemma {:induction false} TreeIdsGrow(trees: seq<Tree>, tr: Tree)
    ensures TreeIds(trees + [tr]) == TreeIds(trees) + {tr.id}
    ensures DistinctIds(trees) && tr.id !in TreeIds(trees) ==> DistinctIds(trees + [tr])
  {
    var more := trees + [tr];
    forall id | id in TreeIds(trees) + {tr.id}
      ensures id in TreeIds(more)
    {
      assert more[|trees|] == tr;
      if id in TreeIds(trees) {
        var k :| 0 <= k < |trees| && trees[k].id == id;
        assert more[k].id == id;
      }
    }
    if DistinctIds(trees) && tr.id !in TreeIds(trees) {
      forall k | 0 <= k < |trees|
        ensures trees[k].id != tr.id
      {
        assert trees[k].id in TreeIds(trees);
      }
    }
  }

  lemma {:induction false} WithTreesReads(files: map<string, Option<DiskTree>>, trees: seq<Tree>)
    requires DistinctIds(trees)
    ensures WithTrees(files, trees).Keys == files.Keys + TreeIds(trees)
    ensures forall k :: 0 <= k < |trees| ==> WithTrees(files, trees)[trees[k].id] == Some(DiskTree(trees[k], 0))
    ensures forall name :: name in files && name !in TreeIds(trees) ==> WithTrees(files, trees)[name] == files[name]
  {
    if trees != [] {
      var n := |trees| - 1;
      WithTreesReads(files, trees[..n]);
      TreeIdsGrow(trees[..n], trees[n]);
      assert trees == trees[..n] + [trees[n]];
    }
  }

  // ---- what Load does to the whole store ----

  // One directory read into task `t` and written back.
  ghost predicate LoadedDir(dir: Dir, id: string, t: Task, dir2: Dir, now: int) {
    Loadable(id, dir) && TaskLoaded(dir, t, now) && dir2 == Persisted(dir, id, t)
  }

  ghost predicate LoadedAt(disk: map<string, Dir>, id: string, t: Task, disk2: map<string, Dir>, now: int) {
    id in disk && id in disk2 && LoadedDir(disk[id], id, t, disk2[id], now)
  }

  ghost predicate EachLoaded(disk: map<string, Dir>, tasks: map<string, Task>, disk2: map<string, Dir>, now: int) {
    forall id :: id in tasks ==> LoadedAt(disk, id, tasks[id], disk2, now)
  }

  // The directories that Load takes.
  ghost function LoadableNames(disk: map<string, Dir>, names: set<string>): set<string> {
    set id | id in names && id in disk && Loadable(id, disk[id])
  }

  ghost predicate OthersKept(disk: map<string, Dir>, tasks: map<string, Task>, disk2: map<string, Dir>) {
    forall id :: id in disk && id !in tasks ==> id in disk2 && disk2[id] == disk[id]
  }

  // The directories `names` have been read.
  ghost predicate LoadedFrom(disk: map<string, Dir>, names: set<string>, tasks: map<string, Task>,
        disk2: map<string, Dir>, now: int) {
    && disk2.Keys == disk.Keys
    && tasks.Keys == LoadableNames(disk, names)
    && EachLoaded(disk, tasks, disk2, now)
    && OthersKept(disk, tasks, disk2)
  }

  // A restart with directories `disk` gives `tasks` and leaves `disk2`.
  ghost predicate Loaded(disk: map<string, Dir>, tasks: map<string, Task>, disk2: map<string, Dir>, now: int) {
    LoadedFrom(disk, disk.Keys, tasks, disk2, now)
  }

  lemma {:induction false} ValidGrows(disk: map<string, Dir>, names: set<string>, id: string)
    requires id in disk
    ensures LoadableNames(disk, names + {id}) ==
      LoadableNames(disk, names) + if Loadable(id, disk[id]) then {id} else {}
  {
  }

  lemma {:induction false} LoadEach(disk: map<string, Dir>, tasks: map<string, Task>, disk2: map<string, Dir>,
        now: int, id: string, t: Task, dir: Dir)
    requires id in disk && disk2.Keys == disk.Keys && LoadedDir(disk[id], id, t, dir, now)
    requires EachLoaded(disk, tasks, disk2, now)
    ensures EachLoaded(disk, tasks[id := t], disk2[id := dir], now)
  {
  }

  lemma {:induction false} LoadMore(disk: map<string, Dir>, names: set<string>, tasks: map<string, Task>,
        disk2: map<string, Dir>, now: int, id: string, t: Task, dir: Dir)
    requires LoadedFrom(disk, names, tasks, disk2, now) && id in disk && id !in names
    requires LoadedDir(disk[id], id, t, dir, now)
    ensures LoadedFrom(disk, names + {id}, tasks[id := t], disk2[id := dir], now)
  {
    ValidGrows(disk, names, id);
    LoadEach(disk, tasks, disk2, now, id, t, dir);
  }

  lemma {:induction false} LoadOne(disk: map<string, Dir>, names: set<string>, tasks: map<string, Task>,
        disk2: map<string, Dir>, now: int, id: string, t: Task)
    requires LoadedFrom(disk, names, tasks, disk2, now) && id in disk && id !in names
    requires Loadable(id, disk[id]) && TaskLoaded(disk[id], t, now)
    ensures LoadedFrom(disk, names + {id}, tasks[id := t], disk2[id := Persisted(DirOf(disk2, id), id, t)], now)
  {
    NotLoadedYet(disk, names, tasks, disk2, now, id);
    LoadMore(disk, names, tasks, disk2, now, id, t, Persisted(disk[id], id, t));
  }

  lemma {:induction false} NotLoadedYet(disk: map<string, Dir>, names: set<string>, tasks: map<string, Task>,
        disk2: map<string, Dir>, now: int, id: string)
    requires LoadedFrom(disk, names, tasks, disk2, now) && id in disk && id !in names
    ensures id !in tasks && id in disk2 && disk2[id] == disk[id]
  {
  }

  lemma {:induction false} LoadNone(disk: map<string, Dir>, names: set<string>, tasks: map<string, Task>,
        disk2: map<string, Dir>, now: int, id: string)
    requires LoadedFrom(disk, names, tasks, disk2, now) && id in disk && !Loadable(id, disk[id])
    ensures LoadedFrom(disk, names + {id}, tasks, disk2, now)
  {
    ValidGrows(disk, names, id);
  }

  lemma {:induction false} RecoveredHeader(dir: Dir, t: Task, now: int)
    requires dir.forestJson.Some? && TaskLoaded(dir, t, now)
    ensures var file := dir.forestJson.value.task;
      && (t.status == Running <==> file.status == Running || Revived(file, dir.interrupted))
      && t.status in {Running, Finished} && t.gardenerStatus in {Running, Finished}
      && t.messages == (if dir.messagesJson.Some? then dir.messagesJson.value else file.messages)
  {
    var bare := t.(trees := []);
    assert bare == Header(dir);
    assert t.status == bare.status && t.gardenerStatus == bare.gardenerStatus && t.messages == bare.messages;
  }

  lemma {:induction false} LoadedTimes(dir: Dir, t: Task, now: int)
    requires dir.forestJson.Some? && TaskLoaded(dir, t, now)
    ensures TimesOf(t, dir.forestJson.value.task)
  {
    assert t.(trees := []) == Header(dir);
  }

  lemma {:induction false} RecoveredTrees(files: map<string, Option<DiskTree>>, trees: seq<Tree>, now: int)
    requires TreesLoaded(files, trees, now)
    ensures forall k :: 0 <= k < |trees| ==> trees[k].status == Finished
  {
  }

  // ---- what comes back, field by field ----

  // The subtask `tr` that a restart at `now` makes of a file.
  predicate TreeComesBack(file: DiskTree, tr: Tree, now: int) {
    && tr.id == file.tree.id && tr.body == file.tree.body
    && tr.startedAt == file.tree.startedAt && tr.updatedAt == file.tree.updatedAt
    && tr.status == Finished
    && tr.completedAt == (if file.tree.status == Running then Some(now) else file.tree.completedAt)
    && tr.forest == (if file.tree.forest == 0 && file.legacyWave > 0 then file.legacyWave else file.tree.forest)
  }

  // What does not depend on old names, messages, subtasks or times.
  predicate FieldsComeBack(file: Task, interrupted: bool, t: Task) {
    && t.body == file.body && t.workspacePath == file.workspacePath && t.stopRequested == file.stopRequested
    && (t.scratchPath == if Blank(file.scratchPath) then file.workspacePath else file.scratchPath)
    && t.modelMode == (match file.modelMode case OtherMode(_) => Default case known => known)
    && t.engine == (match file.engine
                    case Claude => Claude
                    case _ => if file.modelMode in {Kimi, MiniMax} then Claude else Codex)
    && StatusComesBack(file, interrupted, t)
  }

  // An unknown status counts as finished; a finished, unstopped task whose log
  // makes it look interrupted runs again.
  predicate StatusComesBack(file: Task, interrupted: bool, t: Task) {
    if file.status != Running && !file.stopRequested && interrupted
    then t.status == t.gardenerStatus == Running
    else
      && t.status == (if file.status == Running then Running else Finished)
      && t.gardenerStatus == (if file.gardenerStatus == Running then Running else Finished)
  }

  predicate TaskComesBack(dir: Dir, t: Task)
    requires dir.forestJson.Some?
  {
    var d := dir.forestJson.value;
    && FieldsComeBack(d.task, dir.interrupted, t) && TimesOf(t, d.task)
    && t.messages == (if dir.messagesJson.Some? then dir.messagesJson.value else d.task.messages)
    && t.forest == (if d.task.forest == 0 && d.legacyWave > 0 then d.legacyWave else d.task.forest)
    && t.maxTreesPerForest == (if d.task.maxTreesPerForest == 0 && d.legacyMaxTreesPerWave > 0
         then d.legacyMaxTreesPerWave else d.task.maxTreesPerForest)
  }

  lemma {:induction false} EndedComesBack(file: DiskTree, now: int)
    ensures TreeComesBack(file, Ended(WithLegacyWave(file), now), now)
    ensures forall tr :: TreeComesBack(file, tr, now) <==> tr == Ended(WithLegacyWave(file), now)
  {
  }

  lemma {:induction false} RunnableComesBack(t: Task, interrupted: bool)
    ensures FieldsComeBack(t, interrupted, Revive(Runnable(t), interrupted))
  {
  }

  lemma {:induction false} HeaderComesBack(dir: Dir, t: Task)
    requires dir.forestJson.Some? && t.(trees := []) == Header(dir)
    ensures TaskComesBack(dir, t)
  {
    var bare := t.(trees := []);
    RunnableComesBack(ReadHeader(dir), dir.interrupted);
    assert FieldsComeBack(dir.forestJson.value.task, dir.interrupted, bare);
  }

  lemma {:induction false} TreesComeBack(files: map<string, Option<DiskTree>>, trees: seq<Tree>, now: int, k: nat)
    requires TreesLoaded(files, trees, now) && k < |trees|
    ensures trees[k].id in files && files[trees[k].id].Some? && files[trees[k].id].value.tree.id == trees[k].id
    ensures TreeComesBack(files[trees[k].id].value, trees[k], now)
  {
    assert trees[k].id in TreeIds(trees);
    EndedComesBack(files[trees[k].id].value, now);
  }

  // Every field of every loaded task and subtask, from its files.
  lemma {:induction false} LoadedFromFiles(disk: map<string, Dir>, tasks: map<string, Task>, disk2: map<string, Dir>,
        now: int, id: string)
    requires Loaded(disk, tasks, disk2, now) && id in tasks
    ensures id in disk && disk[id].forestJson.Some? && TaskComesBack(disk[id], tasks[id])
    ensures forall k :: 0 <= k < |tasks[id].trees| ==>
      var tr := tasks[id].trees[k];
      && tr.id in disk[id].trees && disk[id].trees[tr.id].Some? && TreeComesBack(disk[id].trees[tr.id].value, tr, now)
  {
    assert LoadedAt(disk, id, tasks[id], disk2, now);
    HeaderComesBack(disk[id], tasks[id]);
    forall k | 0 <= k < |tasks[id].trees|
      ensures var tr := tasks[id].trees[k];
        && tr.id in disk[id].trees && disk[id].trees[tr.id].Some?
        && TreeComesBack(disk[id].trees[tr.id].value, tr, now)
    {
      TreesComeBack(disk[id].trees, tasks[id].trees, now, k);
    }
  }

  lemma {:induction false} TreesOfOwnNames(files: map<string, Option<DiskTree>>, trees: seq<Tree>, now: int,
        name: string)
    requires TreesLoaded(files, trees, now)
    ensures (exists k :: 0 <= k < |trees| && trees[k].id == name) <==>
      name in files && files[name].Some? && files[name].value.tree.id == name && SafeDiskId(name)
  {
    assert (exists k :: 0 <= k < |trees| && trees[k].id == name) <==> name in TreeIds(trees);
    assert name in ValidTrees(files) <==> name in files && ValidTree(name, files[name]);
  }

  // A directory is loaded exactly when its task carries the directory's own safe
  // name.
  lemma {:induction false} LoadsOwnNames(disk: map<string, Dir>, tasks: map<string, Task>, disk2: map<string, Dir>,
        now: int, id: string)
    requires Loaded(disk, tasks, disk2, now)
    ensures id in tasks <==>
      id in disk && disk[id].forestJson.Some? && disk[id].forestJson.value.id == id && SafeDiskId(id)
  {
    assert id in tasks <==> id in LoadableNames(disk, disk.Keys);
  }

  // And a subtask exactly when its file carries the file's own safe name.
  lemma {:induction false} LoadsOwnTrees(disk: map<string, Dir>, tasks: map<string, Task>, disk2: map<string, Dir>,
        now: int, id: string, name: string)
    requires Loaded(disk, tasks, disk2, now) && id in tasks && id in disk
    ensures var trees, files := tasks[id].trees, disk[id].trees;
      (exists k :: 0 <= k < |trees| && trees[k].id == name) <==>
      name in files && files[name].Some? && files[name].value.tree.id == name && SafeDiskId(name)
  {
    assert LoadedAt(disk, id, tasks[id], disk2, now);
    TreesOfOwnNames(disk[id].trees, tasks[id].trees, now, name);
  }

  // When a subtask was started, or else last changed.
  function FirstTime(tr: Tree): int {
    match tr.startedAt
    case Some(at) => at
    case None => tr.updatedAt
  }

  // By stage, and within one stage by time, as far as 64 bits tell times apart.
  predicate ByStageAndTime(trees: seq<Tree>) {
    forall j, k :: 0 <= j < k < |trees| ==>
      trees[j].forest < trees[k].forest ||
      (trees[j].forest == trees[k].forest &&
       SafeUnixNano(FirstTime(trees[j])) <= SafeUnixNano(FirstTime(trees[k])))
  }

  lemma {:induction false} OrderedByTime(trees: seq<Tree>)
    requires Ordered(trees)
    ensures ByStageAndTime(trees)
  {
    forall j, k | 0 <= j < k < |trees|
      ensures Before(trees[j], trees[k])
    {
    }
  }

  // After a restart no subtask runs; a task runs exactly when its file says so or
  // its log makes it look interrupted; messages and valid trees are what the disk
  // had.
  lemma {:induction false} RecoveredTask(disk: map<string, Dir>, tasks: map<string, Task>, disk2: map<string, Dir>,
        now: int, id: string)
    requires Loaded(disk, tasks, disk2, now) && id in tasks
    ensures var t, dir := tasks[id], disk[id];
      var file := dir.forestJson.value.task;
      && (t.status == Running <==> file.status == Running || Revived(file, dir.interrupted))
      && t.status in {Running, Finished} && t.gardenerStatus in {Running, Finished}
      && (forall k :: 0 <= k < |t.trees| ==> t.trees[k].status == Finished)
      && t.messages == (if dir.messagesJson.Some? then dir.messagesJson.value else file.messages)
      && TreeIds(t.trees) == ValidTrees(dir.trees) && DistinctIds(t.trees)
      && ByStageAndTime(t.trees)
  {
    assert LoadedAt(disk, id, tasks[id], disk2, now);
    RecoveredHeader(disk[id], tasks[id], now);
    RecoveredTrees(disk[id].trees, tasks[id].trees, now);
    OrderedByTime(tasks[id].trees);
  }

  // ---- memory and disk agree ----

  predicate WellFormedTrees(trees: seq<Tree>) {
    DistinctIds(trees) && forall k :: 0 <= k < |trees| ==> SafeDiskId(trees[k].id)
  }

  // The directory holds the task as it is in memory, but for the times of the last
  // change and of the last progress, which log lines move in memory alone.
  predicate Mirrors(dir: Dir, id: string, t: Task) {
    && Loadable(id, dir) && WellFormedTrees(t.trees)
    && dir.forestJson.value.task.(updatedAt := t.updatedAt, lastProgressAt := t.lastProgressAt) ==
         t.(messages := [], trees := [])
    && dir.forestJson.value.legacyWave == 0 && dir.forestJson.value.legacyMaxTreesPerWave == 0
    && dir.messagesJson == Some(t.messages)
    && ValidTrees(dir.trees) <= TreeIds(t.trees)
    && forall k :: 0 <= k < |t.trees| ==>
      t.trees[k].id in dir.trees && dir.trees[t.trees[k].id] == Some(DiskTree(t.trees[k], 0))
  }

  lemma {:induction false} PersistMirrors(dir: Dir, id: string, t: Task)
    requires SafeDiskId(id) && WellFormedTrees(t.trees) && ValidTrees(dir.trees) <= TreeIds(t.trees)
    ensures Mirrors(Persisted(dir, id, t), id, t)
  {
    WithTreesReads(dir.trees, t.trees);
  }

  // A subtask of memory, as a restart brings it back.
  predicate Restores(trees: seq<Tree>, tr: Tree, now: int) {
    exists j :: 0 <= j < |trees| && TreeComesBack(DiskTree(tr, 0), trees[j], now)
  }

  // A task as a restart leaves it, its log having been `interrupted` or not.
  predicate Restarted(t: Task, interrupted: bool, t2: Task, now: int) {
    && FieldsComeBack(t, interrupted, t2)
    && t2.messages == t.messages && t2.forest == t.forest && t2.maxTreesPerForest == t.maxTreesPerForest
    && |t2.trees| == |t.trees|
    && (forall k :: 0 <= k < |t.trees| ==> Restores(t2.trees, t.trees[k], now))
    && WellFormedTrees(t2.trees) && Ordered(t2.trees)
  }

  lemma {:induction false} IdsCount(trees: seq<Tree>)
    requires DistinctIds(trees)
    ensures |TreeIds(trees)| == |trees|
  {
    if trees != [] {
      var n := |trees| - 1;
      IdsCount(trees[..n]);
      assert trees == trees[..n] + [trees[n]];
      TreeIdsGrow(trees[..n], trees[n]);
      assert trees[n].id !in TreeIds(trees[..n]);
    }
  }

  lemma {:induction false} MirroredTrees(dir: Dir, id: string, t: Task, t2: Task, now: int)
    requires Mirrors(dir, id, t) && TreesLoaded(dir.trees, t2.trees, now)
    ensures |t2.trees| == |t.trees|
    ensures forall tr :: tr in t2.trees ==> exists k :: 0 <= k < |t.trees| && tr == Ended(t.trees[k], now)
    ensures forall k :: 0 <= k < |t.trees| ==> Ended(t.trees[k], now) in t2.trees
    ensures WellFormedTrees(t2.trees)
  {
    assert ValidTrees(dir.trees) == TreeIds(t.trees);
    IdsCount(t.trees);
    IdsCount(t2.trees);
    forall k | 0 <= k < |t2.trees|
      ensures SafeDiskId(t2.trees[k].id)
      ensures exists j :: 0 <= j < |t.trees| && t2.trees[k] == Ended(t.trees[j], now)
    {
      assert t2.trees[k].id in TreeIds(t2.trees);
      var j :| 0 <= j < |t.trees| && t.trees[j].id == t2.trees[k].id;
      assert t2.trees[k] == Ended(t.trees[j], now);
    }
    forall k | 0 <= k < |t.trees|
      ensures Ended(t.trees[k], now) in t2.trees
    {
      assert t.trees[k].id in TreeIds(t2.trees);
      var j :| 0 <= j < |t2.trees| && t2.trees[j].id == t.trees[k].id;
      assert t2.trees[j] == Ended(t.trees[k], now);
    }
  }

  // What a restart takes from the disk although memory may have had later values.
  predicate TimesOf(t: Task, disk: Task) {
    t.updatedAt == disk.updatedAt && t.lastProgressAt == disk.lastProgressAt
  }

  // A mirroring file has the fields of the task.
  lemma {:induction false} MirroredFields(dir: Dir, id: string, t: Task, t2: Task)
    requires Mirrors(dir, id, t) && t2.(trees := []) == Header(dir)
    ensures FieldsComeBack(t, dir.interrupted, t2) && TimesOf(t2, dir.forestJson.value.task)
    ensures t2.messages == t.messages && t2.forest == t.forest && t2.maxTreesPerForest == t.maxTreesPerForest
  {
    HeaderComesBack(dir, t2);
    var file := dir.forestJson.value.task;
    assert file.(updatedAt := t.updatedAt, lastProgressAt := t.lastProgressAt) == t.(messages := [], trees := []);
    assert FieldsComeBack(file, dir.interrupted, t2);
  }

  lemma {:induction false} EndedRestores(trees: seq<Tree>, tr: Tree, now: int)
    requires Ended(tr, now) in trees
    ensures Restores(trees, tr, now)
  {
    var j :| 0 <= j < |trees| && trees[j] == Ended(tr, now);
    EndedComesBack(DiskTree(tr, 0), now);
    assert TreeComesBack(DiskTree(tr, 0), trees[j], now);
  }

  // A restart gives back what was in memory, ended, with the times of the disk.
  lemma {:induction false} RestartRestores(dir: Dir, id: string, t: Task, t2: Task, now: int)
    requires Mirrors(dir, id, t) && TaskLoaded(dir, t2, now)
    ensures Restarted(t, dir.interrupted, t2, now) && TimesOf(t2, dir.forestJson.value.task)
  {
    MirroredTrees(dir, id, t, t2, now);
    MirroredFields(dir, id, t, t2);
    forall k | 0 <= k < |t.trees|
      ensures Restores(t2.trees, t.trees[k], now)
    {
      EndedRestores(t2.trees, t.trees[k], now);
    }
  }

  // ---- a second restart ----

  lemma {:induction false} RewritingSameTrees(files: map<string, Option<DiskTree>>, trees: seq<Tree>)
    requires forall k :: 0 <= k < |trees| ==> trees[k].id in files && files[trees[k].id] == Some(DiskTree(trees[k], 0))
    ensures WithTrees(files, trees) == files
  {
    if trees != [] {
      RewritingSameTrees(files, trees[..|trees| - 1]);
    }
  }

  // Two tasks that differ at most in the order of their trees.
  ghost predicate SameTask(t: Task, t2: Task) {
    && t2.(trees := []) == t.(trees := [])
    && (forall tr :: tr in t2.trees <==> tr in t.trees)
  }

  lemma {:induction false} LoadedIsWellFormed(dir: Dir, id: string, t: Task, now: int)
    requires Loadable(id, dir) && TaskLoaded(dir, t, now)
    ensures WellFormedTrees(t.trees) && ValidTrees(dir.trees) == TreeIds(t.trees)
    ensures forall k, n2 :: 0 <= k < |t.trees| ==> Ended(t.trees[k], n2) == t.trees[k]
  {
    forall k | 0 <= k < |t.trees|
      ensures SafeDiskId(t.trees[k].id)
    {
      assert t.trees[k].id in TreeIds(t.trees);
    }
  }

  // Loading a directory that was written from a task already loaded.
  lemma {:induction false} SecondHeader(dir: Dir, id: string, t: Task, t2: Task, n1: int, n2: int)
    requires Loadable(id, dir) && TaskLoaded(dir, t, n1) && TaskLoaded(Persisted(dir, id, t), t2, n2)
    ensures t2.(trees := []) == t.(trees := [])
  {
    assert t.(trees := []) == Header(dir) && t2.(trees := []) == Header(Persisted(dir, id, t));
  }

  lemma {:induction false} SecondTrees(dir: Dir, id: string, t: Task, t2: Task, n1: int, n2: int)
    requires Loadable(id, dir) && TaskLoaded(dir, t, n1) && TaskLoaded(Persisted(dir, id, t), t2, n2)
    ensures DistinctIds(t2.trees) && Ordered(t2.trees)
    ensures forall tr :: tr in t2.trees <==> tr in t.trees
    ensures WithTrees(Persisted(dir, id, t).trees, t2.trees) == Persisted(dir, id, t).trees
  {
    var dir1 := Persisted(dir, id, t);
    LoadedIsWellFormed(dir, id, t, n1);
    PersistMirrors(dir, id, t);
    MirroredTrees(dir1, id, t, t2, n2);
    forall k | 0 <= k < |t2.trees|
      ensures t2.trees[k].id in dir1.trees && dir1.trees[t2.trees[k].id] == Some(DiskTree(t2.trees[k], 0))
    {
      assert t2.trees[k] in t2.trees;
    }
    RewritingSameTrees(dir1.trees, t2.trees);
  }

  ghost predicate SettledAt(t: Task, t2: Task, dir: Dir, dir2: Dir) {
    SameTask(t, t2) && DistinctIds(t2.trees) && Ordered(t2.trees) && dir2 == dir
  }

  lemma {:induction false} SecondLoadAt(disk: map<string, Dir>, id: string, t: Task, disk1: map<string, Dir>, n1: int,
                                        t2: Task, disk2: map<string, Dir>, n2: int)
    requires LoadedAt(disk, id, t, disk1, n1) && LoadedAt(disk1, id, t2, disk2, n2)
    ensures SettledAt(t, t2, disk1[id], disk2[id])
  {
    SecondHeader(disk[id], id, t, t2, n1, n2);
    SecondTrees(disk[id], id, t, t2, n1, n2);
  }

  lemma {:induction false} SecondLoadKeys(disk: map<string, Dir>, tasks: map<string, Task>, disk1: map<string, Dir>,
        n1: int, tasks2: map<string, Task>, disk2: map<string, Dir>, n2: int)
    requires Loaded(disk, tasks, disk1, n1) && Loaded(disk1, tasks2, disk2, n2)
    ensures tasks2.Keys == tasks.Keys && disk2.Keys == disk1.Keys
    ensures forall id :: id in disk1 && id !in tasks ==> disk2[id] == disk1[id]
  {
    forall id | id in disk
      ensures Loadable(id, disk1[id]) <==> Loadable(id, disk[id])
    {
      if id in tasks {
        assert LoadedAt(disk, id, tasks[id], disk1, n1);
      }
    }
  }

  lemma {:induction false} SecondLoadTasks(disk: map<string, Dir>, tasks: map<string, Task>, disk1: map<string, Dir>,
        n1: int, tasks2: map<string, Task>, disk2: map<string, Dir>, n2: int)
    requires Loaded(disk, tasks, disk1, n1) && Loaded(disk1, tasks2, disk2, n2)
    requires tasks2.Keys == tasks.Keys && disk2.Keys == disk1.Keys
    ensures forall id :: id in tasks ==> id in disk1 && SettledAt(tasks[id], tasks2[id], disk1[id], disk2[id])
  {
    forall id | id in tasks
      ensures id in disk1 && SettledAt(tasks[id], tasks2[id], disk1[id], disk2[id])
    {
      assert LoadedAt(disk, id, tasks[id], disk1, n1) && LoadedAt(disk1, id, tasks2[id], disk2, n2);
      SecondLoadAt(disk, id, tasks[id], disk1, n1, tasks2[id], disk2, n2);
    }
  }

  // Restarting again changes no task but the order of trees that stage and
  // creation time leave open, and writes the same files.
  lemma {:induction false} SecondLoadChangesNothing(
      disk: map<string, Dir>, tasks: map<string, Task>, disk1: map<string, Dir>, n1: int,
      tasks2: map<string, Task>, disk2: map<string, Dir>, n2: int)
    requires Loaded(disk, tasks, disk1, n1) && Loaded(disk1, tasks2, disk2, n2)
    ensures disk2 == disk1 && tasks2.Keys == tasks.Keys
    ensures forall id :: id in tasks ==> id in disk1 && SettledAt(tasks[id], tasks2[id], disk1[id], disk2[id])
  {
    SecondLoadKeys(disk, tasks, disk1, n1, tasks2, disk2, n2);
    SecondLoadTasks(disk, tasks, disk1, n1, tasks2, disk2, n2);
    forall id | id in disk1
      ensures disk2[id] == disk1[id]
    {
      assert id in tasks ==> SettledAt(tasks[id], tasks2[id], disk1[id], disk2[id]);
    }
  }
}
