/** What a visit of the watchdog and a whole tick do, said of times, messages and
    processes. */
module WatchdogCourse {
  import opened Options
  import opened Watchdog

  // ---- when a task is due ----

  ghost predicate Counts(t: TaskTimes, x: int) {
    || t.lastProgress == Some(x) || (t.hasProgressLines && t.updated == Some(x))
    || exists i :: 0 <= i < |t.trees| && IsTimeOf(t.trees[i], x)
  }

  predicate IsTimeOf(t: TreeTimes, x: int) {
    t.updated == Some(x) || t.started == Some(x) || t.completed == Some(x)
  }

  // Any time that counts, or the time of the last change if none does.
  ghost predicate IsActivity(t: TaskTimes, x: int) {
    Counts(t, x) || (t.updated == Some(x) && forall y :: !Counts(t, y))
  }

  // A system message with a cue, and no system message from it on that is too old.
  ghost predicate CueSince(messages: seq<Message>, since: int) {
    exists i :: 0 <= i < |messages| && messages[i].system && messages[i].cue &&
      forall j :: i <= j < |messages| && messages[j].system ==> messages[j].at >= since
  }

  const MINUTE := 60_000_000_000

  // Two seconds before the latest activity, but at least half an hour back.
  ghost predicate IsCutoff(t: TaskTimes, clock: int, since: int) {
    if exists x :: IsActivity(t, x) && x > clock - 30 * MINUTE then
      exists x :: IsActivity(t, x) && (forall y :: IsActivity(t, y) ==> y <= x) && since == x - 2_000_000_000
    else since == clock - 30 * MINUTE
  }

  // All activity is at least `stale` seconds old, and so is the last mark, and no
  // cue has been given since.
  ghost predicate IsStale(t: TaskTimes, now: int, clock: int, stale: nat) {
    && (exists x :: IsActivity(t, x))
    && (forall x :: IsActivity(t, x) ==> now - x >= stale * 1_000_000_000)
    && (forall x :: t.lastWatchdog == Some(x) ==> now - x >= stale * 1_000_000_000)
    && (forall since :: IsCutoff(t, clock, since) ==> !CueSince(t.messages, since))
  }

  lemma {:induction false} CountedExactly(t: TaskTimes, x: int)
    ensures x in Counted(t) <==> Counts(t, x)
  {
    assert forall i :: 0 <= i < |t.trees| ==> (x in TreeActivity(t.trees[i]) <==> IsTimeOf(t.trees[i], x));
  }

  lemma {:induction false} EmptyExactly(times: set<int>)
    ensures times == {} <==> forall x :: x !in times
  {
    if forall x :: x !in times {
      assert times <= {};
    }
  }

  lemma {:induction false} ActivityExactly(t: TaskTimes, x: int)
    ensures x in Activity(t) <==> IsActivity(t, x)
  {
    forall y
      ensures y in Counted(t) <==> Counts(t, y)
    {
      CountedExactly(t, y);
    }
    EmptyExactly(Counted(t));
  }

  lemma {:induction false} CutoffExactly(t: TaskTimes, latest: Option<int>, clock: int, since: int)
    requires IsLatest(latest, Activity(t))
    ensures IsCutoff(t, clock, since) <==> since == Cutoff(latest, clock)
  {
    forall x
      ensures x in Activity(t) <==> IsActivity(t, x)
    {
      ActivityExactly(t, x);
    }
  }

  lemma {:induction false} SomeLatest(times: set<int>) returns (latest: Option<int>)
    ensures IsLatest(latest, times)
  {
    if exists x :: x in times {
      var x :| x in times;
      var rest := times - {x};
      var other := SomeLatest(rest);
      latest := if other.Some? && other.value > x then other else Some(x);
      assert times == rest + {x};
    } else {
      latest := None;
    }
  }

  lemma {:induction false} OldExactly(t: TaskTimes, now: int, stale: nat)
    ensures AllOld(t, now, stale) <==>
      (exists x :: IsActivity(t, x)) && forall x :: IsActivity(t, x) ==> now - x >= stale * 1_000_000_000
  {
    forall x
      ensures x in Activity(t) <==> IsActivity(t, x)
    {
      ActivityExactly(t, x);
    }
    EmptyExactly(Activity(t));
  }

  lemma {:induction false} CueExactly(t: TaskTimes, latest: Option<int>, clock: int)
    requires IsLatest(latest, Activity(t))
    ensures (forall since :: IsCutoff(t, clock, since) ==> !CueSince(t.messages, since)) <==>
      !RecentCue(t.messages, Cutoff(latest, clock), |t.messages|)
  {
    forall since
      ensures IsCutoff(t, clock, since) <==> since == Cutoff(latest, clock)
    {
      CutoffExactly(t, latest, clock, since);
    }
    assert CueSince(t.messages, Cutoff(latest, clock)) <==>
      RecentCue(t.messages, Cutoff(latest, clock), |t.messages|);
  }

  lemma {:induction false} DueIsStale(t: TaskTimes, now: int, clock: int, stale: nat)
    ensures Due(t, now, clock, stale) <==> IsStale(t, now, clock, stale)
  {
    OldExactly(t, now, stale);
    var latest := SomeLatest(Activity(t));
    CueExactly(t, latest, clock);
    forall other | IsLatest(other, Activity(t))
      ensures other == latest
    {
      LatestIsUnique(other, latest, Activity(t));
    }
  }

  // ---- what a visit does ----

  // The mark counts as progress and is written to the task as it is by now.
  function WithMark(t: TaskTimes, now: int, clock: int): TaskTimes {
    TaskTimes(t.running, Some(clock), Some(clock), true, t.trees, t.messages, Some(now))
  }

  // The copy decides.  A stale task is marked, if it is still there, and gets a run,
  // unless it has a process; nothing else happens to it or to any other task.
  ghost predicate VisitActs(s: State, id: string, now: int, clock: int, stale: nat, s1: State)
    requires id in s.listed
  {
    var acts := IsStale(s.listed[id], now, clock, stale);
    var mark := Mark(id, now, s.listed[id], id in s.busy);
    && s1.listed == s.listed - {id} && s1.absent == s.absent
    && s1.tasks == (if acts && id in s.tasks then s.tasks[id := WithMark(s.tasks[id], now, clock)] else s.tasks)
    && s1.marks == (if acts && id in s.tasks then s.marks + [mark] else s.marks)
    && s1.busy == (if acts then s.busy + {id} else s.busy)
    && s1.starts == (if acts && id !in s.busy then s.starts + [mark] else s.starts)
  }

  lemma {:induction false} VisitActsExactly(s: State, id: string, now: int, clock: int, stale: nat)
    requires id in s.listed
    ensures VisitActs(s, id, now, clock, stale, Visit(s, id, now, clock, stale))
  {
    DueIsStale(s.listed[id], now, clock, stale);
  }

  // ---- a whole tick ----

  ghost predicate ActsOn(s: State, id: string, now: int, clock: int, stale: nat) {
    id in s.tasks && s.tasks[id].running && IsStale(s.tasks[id], now, clock, stale)
  }

  // After the visits to `done`, of the tasks of state `s`.
  ghost predicate TickActs(s: State, done: set<string>, now: int, clock: int, stale: nat, s1: State) {
    && s1.listed.Keys == (set id | id in s.tasks && s.tasks[id].running && id !in done)
    && (forall id :: id in s1.listed ==> s1.listed[id] == s.tasks[id])
    && s1.tasks.Keys == s.tasks.Keys
    && (forall id :: id in s.tasks ==>
          s1.tasks[id] == if id in done && ActsOn(s, id, now, clock, stale)
                          then WithMark(s.tasks[id], now, clock) else s.tasks[id])
    && (forall id :: id in s1.busy <==> id in s.busy || (id in done && ActsOn(s, id, now, clock, stale)))
    && StartsSoFar(s, done, now, clock, stale, s1.starts)
  }

  ghost predicate StartsSoFar(s: State, done: set<string>, now: int, clock: int, stale: nat, starts: seq<Mark>) {
    && |starts| >= |s.starts| && starts[..|s.starts|] == s.starts
    && (forall id :: Started(starts, |s.starts|, id) <==>
          id in done && id !in s.busy && ActsOn(s, id, now, clock, stale))
  }

  ghost predicate Started(starts: seq<Mark>, from: nat, id: string) {
    exists i :: from <= i < |starts| && starts[i].task == id
  }

  lemma {:induction false} StartedGrows(starts: seq<Mark>, from: nat, m: Mark, id: string)
    requires from <= |starts|
    ensures Started(starts + [m], from, id) <==> Started(starts, from, id) || m.task == id
  {
    var more := starts + [m];
    assert more[|starts|] == m && forall i :: 0 <= i < |starts| ==> more[i] == starts[i];
  }

  lemma {:induction false} VisitContinuesTick(s: State, done: set<string>, id: string, now: int, clock: int, stale: nat,
        s1: State, s2: State)
    requires TickActs(s, done, now, clock, stale, s1) && id in s1.listed
    requires VisitActs(s1, id, now, clock, stale, s2)
    ensures TickActs(s, done + {id}, now, clock, stale, s2)
  {
    assert s1.listed[id] == s.tasks[id] && id !in done;
    StartsContinue(s, done, id, now, clock, stale, s1, s2);
  }

  lemma {:induction false} StartsContinue(s: State, done: set<string>, id: string, now: int, clock: int, stale: nat,
        s1: State, s2: State)
    requires TickActs(s, done, now, clock, stale, s1) && id in s1.listed
    requires VisitActs(s1, id, now, clock, stale, s2)
    ensures StartsSoFar(s, done + {id}, now, clock, stale, s2.starts)
  {
    assert s1.listed[id] == s.tasks[id] && id !in done;
    forall other
      ensures Started(s2.starts, |s.starts|, other) <==>
        other in done + {id} && other !in s.busy && ActsOn(s, other, now, clock, stale)
    {
      if s2.starts != s1.starts {
        StartedGrows(s1.starts, |s.starts|, Mark(id, now, s1.listed[id], id in s1.busy), other);
      }
    }
  }

  lemma {:induction false} SkipContinuesTick(s: State, done: set<string>, id: string, now: int, clock: int, stale: nat,
        s1: State)
    requires TickActs(s, done, now, clock, stale, s1) && id !in s1.listed
    ensures TickActs(s, done + {id}, now, clock, stale, s1)
  {
    if id !in done {
      assert !(id in s.tasks && s.tasks[id].running);
      assert !ActsOn(s, id, now, clock, stale);
    }
  }

  lemma {:induction false} TickSoFar(s: State, order: seq<string>, now: int, clock: int, stale: nat)
    ensures TickActs(s, set i | 0 <= i < |order| :: order[i], now, clock, stale,
                     VisitAll(List(s), order, now, clock, stale))
  {
    var done := set i | 0 <= i < |order| :: order[i];
    if order == [] {
      assert done == {};
    } else {
      var n := |order| - 1;
      var before := set i | 0 <= i < n :: order[..n][i];
      TickSoFar(s, order[..n], now, clock, stale);
      var s1 := VisitAll(List(s), order[..n], now, clock, stale);
      assert done == before + {order[n]} by {
        assert forall i :: 0 <= i < n ==> order[..n][i] == order[i];
      }
      if order[n] in s1.listed {
        VisitActsExactly(s1, order[n], now, clock, stale);
        VisitContinuesTick(s, before, order[n], now, clock, stale, s1, Visit(s1, order[n], now, clock, stale));
      } else {
        SkipContinuesTick(s, before, order[n], now, clock, stale, s1);
      }
    }
  }

  // A tick that nothing interferes with marks exactly the running, stale tasks, and
  // starts a run for exactly those of them that have no process.
  lemma {:induction false} TickActsExactly(s: State, order: seq<string>, now: int, clock: int, stale: nat)
    requires forall id :: id in s.tasks && s.tasks[id].running ==> id in order
    ensures var s1 := VisitAll(List(s), order, now, clock, stale);
      && s1.listed == map[] && s1.tasks.Keys == s.tasks.Keys
      && (forall id :: id in s.tasks ==>
            s1.tasks[id] == if ActsOn(s, id, now, clock, stale)
                            then WithMark(s.tasks[id], now, clock) else s.tasks[id])
      && (forall id :: Started(s1.starts, |s.starts|, id) <==> id !in s.busy && ActsOn(s, id, now, clock, stale))
  {
    var done := set i | 0 <= i < |order| :: order[i];
    TickSoFar(s, order, now, clock, stale);
    assert forall id :: id in order ==> id in done;
    assert VisitAll(List(s), order, now, clock, stale).listed.Keys == {};
  }
}
