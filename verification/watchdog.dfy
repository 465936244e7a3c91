/** When the watchdog acts.  Times are nanoseconds; None stands for a time that
    was never set. */
module Watchdog {
  import opened Options

  const SECOND := 1_000_000_000

  datatype TreeTimes = TreeTimes(updated: Option<int>, started: Option<int>, completed: Option<int>)

  // `cue` says that a system message carries the text of an old status cue.
  datatype Message = Message(system: bool, cue: bool, at: int)

  datatype TaskTimes = TaskTimes(
    running: bool,
    lastProgress: Option<int>,
    updated: Option<int>,
    hasProgressLines: bool,
    trees: seq<TreeTimes>,
    messages: seq<Message>,
    lastWatchdog: Option<int>)

  // ---- activity ----

  function Times(o: Option<int>): set<int> {
    if o.Some? then {o.value} else {}
  }

  function TreeActivity(t: TreeTimes): set<int> {
    Times(t.updated) + Times(t.started) + Times(t.completed)
  }

  function TreesActivity(trees: seq<TreeTimes>): set<int> {
    set i, x | 0 <= i < |trees| && x in TreeActivity(trees[i]) :: x
  }

  // The times latestTaskActivity considers.
  function Counted(t: TaskTimes): set<int> {
    Times(t.lastProgress) + (if t.hasProgressLines then Times(t.updated) else {}) + TreesActivity(t.trees)
  }

  // ... with its fallback when there are none.
  function Activity(t: TaskTimes): set<int> {
    if Counted(t) == {} then Times(t.updated) else Counted(t)
  }

  ghost predicate IsLatest(latest: Option<int>, times: set<int>) {
    if latest.None? then times == {} else latest.value in times && forall x :: x in times ==> x <= latest.value
  }

  lemma {:induction false} LatestIsUnique(a: Option<int>, b: Option<int>, times: set<int>)
    requires IsLatest(a, times) && IsLatest(b, times)
    ensures a == b
  {
    if a.Some? && b.Some? {
      assert a.value <= b.value && b.value <= a.value;
      assert a == Some(b.value);
    }
  }

  function Later(latest: Option<int>, v: Option<int>): Option<int> {
    if v.Some? && (latest.None? || v.value > latest.value) then v else latest
  }

  lemma {:induction false} LaterAdds(latest: Option<int>, v: Option<int>, times: set<int>)
    requires IsLatest(latest, times)
    ensures IsLatest(Later(latest, v), times + Times(v))
  {
  }

  lemma {:induction false} TreeAdds(latest: Option<int>, t: TreeTimes, times: set<int>)
    requires IsLatest(latest, times)
    ensures IsLatest(Later(Later(Later(latest, t.updated), t.started), t.completed), times + TreeActivity(t))
  {
    LaterAdds(latest, t.updated, times);
    LaterAdds(Later(latest, t.updated), t.started, times + Times(t.updated));
    LaterAdds(Later(Later(latest, t.updated), t.started), t.completed, times + Times(t.updated) + Times(t.started));
    assert times + TreeActivity(t) == times + Times(t.updated) + Times(t.started) + Times(t.completed);
  }

  lemma {:induction false} HeadAdds(t: TaskTimes)
    ensures var first := Later(None, t.lastProgress);
      IsLatest(if t.hasProgressLines then Later(first, t.updated) else first,
               Times(t.lastProgress) + if t.hasProgressLines then Times(t.updated) else {})
  {
    LaterAdds(None, t.lastProgress, {});
    assert {} + Times(t.lastProgress) == Times(t.lastProgress);
    LaterAdds(Later(None, t.lastProgress), t.updated, Times(t.lastProgress));
    assert Times(t.lastProgress) + {} == Times(t.lastProgress);
  }

  method LatestTaskActivity(t: TaskTimes) returns (latest: Option<int>)
    ensures IsLatest(latest, Activity(t))
  {
    latest := None;
    HeadAdds(t);
    latest := Later(latest, t.lastProgress);
    if t.hasProgressLines {
      latest := Later(latest, t.updated);
    }
    ghost var head := Times(t.lastProgress) + if t.hasProgressLines then Times(t.updated) else {};
    ghost var seen := head;
    for i := 0 to |t.trees|
      invariant seen == head + TreesActivity(t.trees[..i])
      invariant IsLatest(latest, seen)
    {
      var tr := t.trees[i];
      TreesActivityGrows(t.trees, i);
      TreeAdds(latest, tr, seen);
      latest := Later(latest, tr.updated);
      latest := Later(latest, tr.started);
      latest := Later(latest, tr.completed);
      seen := seen + TreeActivity(tr);
    }
    assert t.trees[..|t.trees|] == t.trees;
    assert seen == Counted(t);
    if latest.None? && t.updated.Some? {
      latest := t.updated;
    }
  }

  lemma {:induction false} TreesActivityGrows(trees: seq<TreeTimes>, i: nat)
    requires i < |trees|
    ensures TreesActivity(trees[..i + 1]) == TreesActivity(trees[..i]) + TreeActivity(trees[i])
  {
    var a, b := trees[..i], trees[..i + 1];
    assert forall j :: 0 <= j < i ==> a[j] == b[j];
    assert b[i] == trees[i];
    forall x | x in TreesActivity(b)
      ensures x in TreesActivity(a) + TreeActivity(trees[i])
    {
      var j :| 0 <= j < |b| && x in TreeActivity(b[j]);
      if j < i {
        assert x in TreeActivity(a[j]);
      }
    }
    forall x | x in TreesActivity(a) + TreeActivity(trees[i])
      ensures x in TreesActivity(b)
    {
      if x in TreesActivity(a) {
        var j :| 0 <= j < |a| && x in TreeActivity(a[j]);
        assert x in TreeActivity(b[j]);
      } else {
        assert x in TreeActivity(b[i]);
      }
    }
  }

  // Whole seconds since the latest activity; 0 without any.
  function IdleSeconds(latest: Option<int>, now: int): nat {
    if latest.Some? && now > latest.value then (now - latest.value) / SECOND else 0
  }

  // The idle test passes exactly when every counted time is old enough.
  lemma {:induction false} IdleExactlyWhenAllOld(t: TaskTimes, latest: Option<int>, now: int, stale: nat)
    requires IsLatest(latest, Activity(t)) && stale > 0
    ensures IdleSeconds(latest, now) >= stale <==>
      Activity(t) != {} && forall x :: x in Activity(t) ==> now - x >= stale * SECOND
  {
    if latest.Some? {
      var d := now - latest.value;
      if d > 0 {
        assert d == d / SECOND * SECOND + d % SECOND;
      }
    }
  }

  // ---- the cue of an earlier version ----

  ghost predicate RecentCue(messages: seq<Message>, cutoff: int, n: nat)
    requires n <= |messages|
  {
    exists i :: 0 <= i < n && messages[i].system && messages[i].cue &&
      forall j :: i <= j < n && messages[j].system ==> messages[j].at >= cutoff
  }

  function Cutoff(latest: Option<int>, clock: int): int {
    var base := clock - 30 * 60 * SECOND;
    if latest.Some? && latest.value > base then latest.value - 2 * SECOND else base
  }

  method HasRecentWatchdogCue(t: TaskTimes, latest: Option<int>, clock: int) returns (recent: bool)
    ensures recent <==> RecentCue(t.messages, Cutoff(latest, clock), |t.messages|)
  {
    var cutoff := Cutoff(latest, clock);
    var i := |t.messages| - 1;
    while i >= 0
      invariant -1 <= i < |t.messages|
      invariant forall j :: i < j < |t.messages| && t.messages[j].system ==>
        t.messages[j].at >= cutoff && !t.messages[j].cue
    {
      var msg := t.messages[i];
      if msg.system {
        if msg.at < cutoff { return false; }
        if msg.cue { return true; }
      }
      i := i - 1;
    }
    return false;
  }

  // ---- ticks ----

  // What the watchdog did to a task, with the copy of the task it looked at and
  // whether the task had a registered process at that moment.
  datatype Mark = Mark(task: string, at: int, seen: TaskTimes, busy: bool)

  // `busy` are the tasks with registered process keys and `listed` the copies that
  // the current tick has still to visit.  `absent` is what the disk remembers of
  // LastWatchdogAt for tasks that are not in memory; `marks` and `starts` are the
  // history of what the watchdog did.
  datatype State = State(
    tasks: map<string, TaskTimes>,
    busy: set<string>,
    listed: map<string, TaskTimes>,
    absent: map<string, Option<int>>,
    marks: seq<Mark>,
    starts: seq<Mark>)

  ghost predicate AllOld(t: TaskTimes, now: int, stale: nat) {
    Activity(t) != {} && forall x :: x in Activity(t) ==> now - x >= stale * SECOND
  }

  ghost predicate Due(t: TaskTimes, now: int, clock: int, stale: nat) {
    && AllOld(t, now, stale)
    && (t.lastWatchdog.Some? ==> now - t.lastWatchdog.value >= stale * SECOND)
    && forall latest :: IsLatest(latest, Activity(t)) ==>
       !RecentCue(t.messages, Cutoff(latest, clock), |t.messages|)
  }

  // UpdateTask with the mark, then AppendGardenerLog, at time `clock`.
  function Marked(t: TaskTimes, now: int, clock: int): TaskTimes {
    t.(lastWatchdog := Some(now), updated := Some(clock), lastProgress := Some(clock), hasProgressLines := true)
  }

  // ListRunningTasks hands out copies.
  function List(s: State): State {
    s.(listed := map id | id in s.tasks && s.tasks[id].running :: s.tasks[id])
  }

  // The loop decides by the copy and writes to the task as it is by then, if it
  // still exists.
  ghost function Visit(s: State, id: string, now: int, clock: int, stale: nat): State
    requires id in s.listed
  {
    var seen, s1 := s.listed[id], s.(listed := s.listed - {id});
    if !Due(seen, now, clock, stale) then s1
    else
      var mark := Mark(id, now, seen, id in s.busy);
      s1.(tasks := if id in s.tasks then s.tasks[id := Marked(s.tasks[id], now, clock)] else s.tasks,
          busy := s.busy + {id},
          marks := if id in s.tasks then s.marks + [mark] else s.marks,
          starts := if id in s.busy then s.starts else s.starts + [mark])
  }

  ghost function VisitAll(s: State, order: seq<string>, now: int, clock: int, stale: nat): State {
    if order == [] then s
    else
      var n := |order| - 1;
      var before := VisitAll(s, order[..n], now, clock, stale);
      if order[n] in before.listed then Visit(before, order[n], now, clock, stale) else before
  }

  class Loop {
    var tasks: map<string, TaskTimes>
    var busy: set<string>
    var listed: map<string, TaskTimes>
    ghost var absent: map<string, Option<int>>
    ghost var marks: seq<Mark>
    ghost var starts: seq<Mark>

    ghost function Now(): State
      reads this
    {
      State(tasks, busy, listed, absent, marks, starts)
    }

    method ListRunningTasks()
      modifies this`listed
      ensures Now() == List(old(Now()))
    {
      var rest := tasks.Keys;
      listed := map[];
      while rest != {}
        invariant rest <= tasks.Keys
        invariant listed.Keys == set id | id in tasks.Keys - rest && tasks[id].running
        invariant forall id :: id in listed ==> listed[id] == tasks[id]
        decreases rest
      {
        var id :| id in rest;
        if tasks[id].running { listed := listed[id := tasks[id]]; }
        rest := rest - {id};
      }
      assert listed == List(old(Now())).listed;
    }

    // One turn of the loop.  Anything may have happened since the copy was taken.
    method VisitOne(id: string, now: int, clock: int, stale: nat)
      requires stale > 0 && id in listed
      modifies this
      ensures Now() == Visit(old(Now()), id, now, clock, stale)
    {
      var t := listed[id];
      var latest := LatestTaskActivity(t);
      var recent := HasRecentWatchdogCue(t, latest, clock);
      DueExactly(t, latest, now, clock, stale, recent);
      listed := listed - {id};
      if IdleSeconds(latest, now) < stale { return; }
      if t.lastWatchdog.Some? && now - t.lastWatchdog.value < stale * SECOND { return; }
      if recent { return; }
      ghost var mark := Mark(id, now, t, id in busy);
      if id in tasks {
        tasks := tasks[id := Marked(tasks[id], now, clock)];
        marks := marks + [mark];
      }
      if id !in busy {
        busy := busy + {id};
        starts := starts + [mark];
      } else {
        assert busy + {id} == busy;
      }
    }

    // A tick that nothing else interferes with; `order` is that of the list.
    method RunWatchdogOnce(order: seq<string>, now: int, clock: int, stale: nat)
      requires stale > 0
      modifies this
      ensures Now() == VisitAll(List(old(Now())), order, now, clock, stale)
    {
      ListRunningTasks();
      ghost var start := Now();
      for i := 0 to |order|
        invariant Now() == VisitAll(start, order[..i], now, clock, stale)
      {
        assert order[..i + 1][..i] == order[..i];
        if order[i] in listed {
          VisitOne(order[i], now, clock, stale);
        }
      }
      assert order[..|order|] == order;
    }
  }

  // The three tests of the loop together.
  lemma {:induction false} DueExactly(t: TaskTimes, latest: Option<int>, now: int, clock: int, stale: nat, recent: bool)
    requires IsLatest(latest, Activity(t)) && stale > 0
    requires recent <==> RecentCue(t.messages, Cutoff(latest, clock), |t.messages|)
    ensures Due(t, now, clock, stale) <==>
      IdleSeconds(latest, now) >= stale && !recent &&
      (t.lastWatchdog.Some? ==> now - t.lastWatchdog.value >= stale * SECOND)
  {
    IdleExactlyWhenAllOld(t, latest, now, stale);
    forall other | IsLatest(other, Activity(t))
      ensures other == latest
    {
      LatestIsUnique(other, latest, Activity(t));
    }
  }

  // ---- histories ----

  // Whatever else happens between two actions of the watchdog.  Nobody else writes
  // LastWatchdogAt; a task that leaves memory is remembered by the disk, and may
  // come back with what the disk remembers; a new task has a new identifier.
  ghost predicate Elapses(s: State, s1: State) {
    && s1.marks == s.marks && s1.starts == s.starts
    && (s1.listed == s.listed || s1.listed == map[])
    && (forall id :: id in s1.tasks ==> KeepsMemory(s, id, s1.tasks[id].lastWatchdog))
    && (forall id :: id in s1.absent && id !in s1.tasks ==> KeepsMemory(s, id, s1.absent[id]))
  }

  // `last` is what is known of the last mark of a task, if it was ever known.
  ghost predicate KeepsMemory(s: State, id: string, last: Option<int>) {
    if id in s.tasks then last == s.tasks[id].lastWatchdog
    else if id in s.absent then last == s.absent[id]
    else forall i :: 0 <= i < |s.marks| ==> s.marks[i].task != id
  }

  datatype Event = Listing | Visiting(id: string, now: int, clock: int) | Others(after: State)

  ghost predicate Possible(s: State, e: Event) {
    match e
    case Listing => true
    case Visiting(id, _, _) => id in s.listed
    case Others(after) => Elapses(s, after)
  }

  ghost function Happen(s: State, e: Event, stale: nat): State
    requires Possible(s, e)
  {
    match e
    case Listing => List(s)
    case Visiting(id, now, clock) => Visit(s, id, now, clock, stale)
    case Others(after) => after
  }

  ghost predicate CanHappen(s: State, events: seq<Event>, stale: nat)
    decreases |events|
  {
    events == [] || (Possible(s, events[0]) && CanHappen(Happen(s, events[0], stale), events[1..], stale))
  }

  ghost function AfterAll(s: State, events: seq<Event>, stale: nat): State
    requires CanHappen(s, events, stale)
    decreases |events|
  {
    if events == [] then s else AfterAll(Happen(s, events[0], stale), events[1..], stale)
  }

  // ---- rate ----

  ghost predicate MarksSpaced(s: State, stale: nat) {
    forall i, j :: 0 <= i < j < |s.marks| && s.marks[i].task == s.marks[j].task ==>
      s.marks[j].at - s.marks[i].at >= stale * SECOND
  }

  predicate NotBefore(last: Option<int>, at: int) {
    last.Some? && at <= last.value
  }

  // Task, disk and list all remember the last mark.
  ghost predicate Remembered(s: State, m: Mark) {
    && (m.task in s.tasks ==> NotBefore(s.tasks[m.task].lastWatchdog, m.at))
    && (m.task !in s.tasks && m.task in s.absent ==> NotBefore(s.absent[m.task], m.at))
    && (m.task in s.listed ==> NotBefore(s.listed[m.task].lastWatchdog, m.at))
  }

  ghost predicate Rated(s: State, stale: nat) {
    MarksSpaced(s, stale) && forall i :: 0 <= i < |s.marks| ==> Remembered(s, s.marks[i])
  }

  lemma {:induction false} VisitKeepsRate(s: State, id: string, now: int, clock: int, stale: nat)
    requires Rated(s, stale) && id in s.listed
    ensures Rated(Visit(s, id, now, clock, stale), stale)
  {
    var s1 := Visit(s, id, now, clock, stale);
    forall i | 0 <= i < |s1.marks|
      ensures Remembered(s1, s1.marks[i])
    {
      if i < |s.marks| {
        assert s1.marks[i] == s.marks[i] && Remembered(s, s.marks[i]);
      }
    }
    forall i, j | 0 <= i < j < |s1.marks| && s1.marks[i].task == s1.marks[j].task
      ensures s1.marks[j].at - s1.marks[i].at >= stale * SECOND
    {
      assert s1.marks[i] == s.marks[i] && Remembered(s, s.marks[i]);
    }
  }

  lemma {:induction false} EventKeepsRate(s: State, e: Event, stale: nat)
    requires Rated(s, stale) && Possible(s, e)
    ensures Rated(Happen(s, e, stale), stale)
  {
    if e.Visiting? {
      VisitKeepsRate(s, e.id, e.now, e.clock, stale);
    } else {
      var s1 := Happen(s, e, stale);
      forall i | 0 <= i < |s1.marks|
        ensures Remembered(s1, s1.marks[i])
      {
        assert Remembered(s, s.marks[i]);
      }
    }
  }

  // However visits, deletions, crashes and everything else interleave, two marks of
  // one task are staleAfter apart.
  lemma {:induction false} MarksAreRateLimited(s: State, events: seq<Event>, stale: nat)
    requires Rated(s, stale) && CanHappen(s, events, stale)
    ensures MarksSpaced(AfterAll(s, events, stale), stale)
    decreases |events|
  {
    if events != [] {
      EventKeepsRate(s, events[0], stale);
      MarksAreRateLimited(Happen(s, events[0], stale), events[1..], stale);
    }
  }

  // ---- restraint ----

  // The copy showed a running task all of whose activity was old.
  ghost predicate Justified(m: Mark, stale: nat) {
    m.seen.running && AllOld(m.seen, m.at, stale)
  }

  ghost predicate Restrained(s: State, stale: nat) {
    && (forall id :: id in s.listed ==> s.listed[id].running)
    && (forall i :: 0 <= i < |s.marks| ==> Justified(s.marks[i], stale))
    && (forall i :: 0 <= i < |s.starts| ==> Justified(s.starts[i], stale) && !s.starts[i].busy)
  }

  lemma {:induction false} EventKeepsRestraint(s: State, e: Event, stale: nat)
    requires Restrained(s, stale) && Possible(s, e)
    ensures Restrained(Happen(s, e, stale), stale)
  {
  }

  // Over any history, every mark and every start was made for a task seen running
  // with all its activity staleAfter old, and every start without a registered
  // process at that moment.
  lemma {:induction false} WatchdogIsRestrained(s: State, events: seq<Event>, stale: nat)
    requires Restrained(s, stale) && CanHappen(s, events, stale)
    ensures Restrained(AfterAll(s, events, stale), stale)
    decreases |events|
  {
    if events != [] {
      EventKeepsRestraint(s, events[0], stale);
      WatchdogIsRestrained(Happen(s, events[0], stale), events[1..], stale);
    }
  }

  // A mark counts as activity, so the same task is not due again at once.
  lemma {:induction false} MarkedIsNotDue(t: TaskTimes, now: int, clock: int, next: int, clock1: int, stale: nat)
    requires next - clock < stale * SECOND
    ensures !Due(Marked(t, now, clock), next, clock1, stale)
  {
    assert clock in Times(Marked(t, now, clock).lastProgress);
    assert clock in Activity(Marked(t, now, clock));
  }
}
