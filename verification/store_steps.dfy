/** The steps of the store: what every operation does to memory and disk. */
module StoreSteps {
  import opened Options
  import opened StoreModel

  datatype Settings = Settings(modelMode: ModelMode, engine: Engine)

  // normalizeSettings
  function NormalSettings(s: Settings): Settings {
    Settings(NormalMode(s.modelMode), CompatibleEngine(s.engine, NormalMode(s.modelMode)))
  }

  // Both maps of the store, and the tasks whose files a deletion has yet to remove.
  datatype State = State(tasks: map<string, Task>, disk: map<string, Dir>, removing: map<string, Task>)

  function Saved(s: State, id: string, t: Task): State {
    s.(tasks := s.tasks[id := t], disk := s.disk[id := Persisted(DirOf(s.disk, id), id, t)])
  }

  // The files of a directory that persistTaskLocked does not write.  Each is
  // written outside the lock, after the directory has been made, and some after a
  // lookup of the task that may be out of date by then.
  datatype OtherFile =
    | UsageLine                    // AppendUsageEvent, without a lookup
    | TreeProgress                 // AppendTreeProgress, even when the update finds no task
    | LogLine(interrupted: bool)   // the file half of a log line, and whether it holds that sentence
    | Schedule                     // WriteSchedule, AppendSchedule
    | Report                       // writeFruit
    | Goal                         // writeTreeGoal
    | AgentOutput                  // what a command line agent has said

  function Touched(s: State, id: string, file: OtherFile): State {
    var dir := DirOf(s.disk, id);
    s.(disk := s.disk[id := dir.(interrupted := dir.interrupted || file == LogLine(true))])
  }

  // AppendGardenerLog, up to the unlock; nothing of it is persisted.
  function Noted(t: Task, at: int): Task {
    t.(updatedAt := at, lastProgressAt := Some(at))
  }

  predicate Suits(t: Task, settings: Settings) {
    NormalEngine(t.engine) == settings.engine && NormalMode(t.modelMode) == settings.modelMode
  }

  function WithSettings(t: Task, settings: Settings, now: int): Task {
    t.(engine := settings.engine, modelMode := settings.modelMode, updatedAt := now)
  }

  // A task and its directory after a settings change.
  ghost predicate SettingsAt(s: State, n: Settings, now: int, id: string, s2: State) {
    id in s2.tasks && id in s.tasks &&
    if Suits(s.tasks[id], n) then
      s2.tasks[id] == s.tasks[id] && (id in s.disk <==> id in s2.disk) && (id in s.disk ==> s2.disk[id] == s.disk[id])
    else
      s2.tasks[id] == WithSettings(s.tasks[id], n, now) &&
      id in s2.disk && s2.disk[id] == Persisted(DirOf(s.disk, id), id, s2.tasks[id])
  }

  // Done for the tasks `names`.
  ghost predicate SettingsFrom(s: State, n: Settings, now: int, names: set<string>, s2: State) {
    && s2.removing == s.removing && s2.tasks.Keys == s.tasks.Keys
    && (forall id :: id in s.tasks && id in names ==> SettingsAt(s, n, now, id, s2))
    && (forall id :: id in s.tasks && id !in names ==> s2.tasks[id] == s.tasks[id])
    && (forall id :: !(id in s.tasks && id in names) ==>
          (id in s.disk <==> id in s2.disk) && (id in s.disk ==> s2.disk[id] == s.disk[id]))
  }

  ghost predicate SettingsApplied(s: State, settings: Settings, now: int, s2: State) {
    SettingsFrom(s, NormalSettings(settings), now, s.tasks.Keys, s2)
  }

  lemma {:induction false} SettingsKept(s: State, n: Settings, now: int, names: set<string>, s2: State, id: string)
    requires SettingsFrom(s, n, now, names, s2) && id in s.tasks && id !in names && Suits(s.tasks[id], n)
    ensures SettingsFrom(s, n, now, names + {id}, s2)
  {
    assert SettingsAt(s, n, now, id, s2);
  }

  lemma {:induction false} SettingsSet(s: State, n: Settings, now: int, names: set<string>, s2: State, id: string,
        s3: State)
    requires SettingsFrom(s, n, now, names, s2) && id in s.tasks && id !in names && !Suits(s.tasks[id], n)
    requires s3 == Saved(s2, id, WithSettings(s.tasks[id], n, now))
    ensures SettingsFrom(s, n, now, names + {id}, s3)
  {
    forall other | other in s.tasks && other in names + {id}
      ensures SettingsAt(s, n, now, other, s3)
    {
      if other == id {
        assert DirOf(s2.disk, id) == DirOf(s.disk, id);
      } else {
        assert SettingsAt(s, n, now, other, s2);
      }
    }
  }

  // ---- the steps ----

  datatype Op =
    | Add(id: string, task: Task)
    | Update(id: string, change: Task -> Task, at: int)
    | Note(id: string, at: int)   // the memory half of a log line
    | WriteOther(id: string, file: OtherFile)
    | ApplySettings(settings: Settings, at: int)
    | Forget(id: string)          // DeleteTask up to the unlock
    | RemoveFiles(id: string)     // and after it
    | Restart(at: int)

  ghost predicate Next(s: State, op: Op, s2: State) {
    match op
    case Add(id, t) => s2 == Saved(s, id, t)
    case Update(id, change, at) =>
      s2 == if id in s.tasks then Saved(s, id, change(s.tasks[id]).(updatedAt := at)) else s
    case Note(id, at) =>
      s2 == if id in s.tasks then s.(tasks := s.tasks[id := Noted(s.tasks[id], at)]) else s
    case WriteOther(id, file) => s2 == Touched(s, id, file)
    case ApplySettings(settings, at) => SettingsApplied(s, settings, at, s2)
    case Forget(id) =>
      s2 == if id in s.tasks then s.(tasks := s.tasks - {id}, removing := s.removing[id := s.tasks[id]]) else s
    case RemoveFiles(id) => id in s.removing && s2 == s.(disk := s.disk - {id}, removing := s.removing - {id})
    case Restart(at) => s2.removing == map[] && Loaded(s.disk, s2.tasks, s2.disk, at)
  }
}
