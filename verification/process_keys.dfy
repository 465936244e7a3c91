/** The string keys under which the orchestrator registers cancel functions:
    `taskID:gardener:runID` for a run and `taskID:treeID` for a subtask.
    Identifiers are a prefix, an underscore and hexadecimal digits, so they
    never contain a colon; that is what keeps the keys of two tasks apart. */
module ProcessKeys {
  import opened Text

  predicate ColonFree(id: string) {
    ':' !in id
  }

  function TreeKey(task: string, tree: string): string {
    task + ":" + tree
  }

  function RunKey(task: string, run: string): string {
    TreeKey(task, "gardener:" + run)
  }

  // The test of cancelTaskProcesses and hasTaskProcesses.
  predicate Covers(task: string, key: string) {
    key == task || HasPrefix(key, task + ":")
  }

  // A colon-free head determines where a key splits.
  lemma {:induction false} SplitUnique(a: string, x: string, b: string, y: string)
    requires ColonFree(a) && ColonFree(b)
    requires a + ":" + x == b + ":" + y
    ensures a == b && x == y
  {
    var s, t := a + ":" + x, b + ":" + y;
    assert s[|a|] == ':' && t[|b|] == ':';
    assert forall i :: 0 <= i < |a| ==> s[i] == a[i];
    assert forall i :: 0 <= i < |b| ==> t[i] == b[i];
    assert |a| == |b|;
    assert s[..|a|] == a && t[..|b|] == b;
    assert s[|a| + 1..] == x && t[|b| + 1..] == y;
  }

  // Cancelling by the prefix `id:` reaches exactly the keys of that task.
  lemma {:induction false} CoversOnlyOwnKeys(task: string, other: string, rest: string)
    requires ColonFree(task) && ColonFree(other)
    ensures Covers(task, TreeKey(other, rest)) <==> task == other
  {
    var key := TreeKey(other, rest);
    assert key[|other|] == ':';
    if task == other {
      assert key[..|task| + 1] == task + ":";
    } else if HasPrefix(key, task + ":") {
      var tail := key[|task| + 1..];
      assert key == (task + ":") + tail;
      SplitUnique(task, tail, other, rest);
    }
  }

  lemma {:induction false} RunKeysDistinct(t1: string, r1: string, t2: string, r2: string)
    requires ColonFree(t1) && ColonFree(t2)
    ensures RunKey(t1, r1) == RunKey(t2, r2) <==> t1 == t2 && r1 == r2
  {
    if RunKey(t1, r1) == RunKey(t2, r2) {
      SplitUnique(t1, "gardener:" + r1, t2, "gardener:" + r2);
      assert ("gardener:" + r1)[9..] == r1 && ("gardener:" + r2)[9..] == r2;
    }
  }

  lemma {:induction false} TreeKeyIsNotRunKey(t1: string, tree: string, t2: string, run: string)
    requires ColonFree(t1) && ColonFree(t2) && ColonFree(tree)
    ensures TreeKey(t1, tree) != RunKey(t2, run)
  {
    assert ("gardener:" + run)[8] == ':';
    if TreeKey(t1, tree) == RunKey(t2, run) {
      SplitUnique(t1, tree, t2, "gardener:" + run);
    }
  }
}
