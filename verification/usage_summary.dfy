/** Removing duplicate usage records, and the per-model summary. */
module UsageSummary {
  import opened Options
  import opened Usage
  import opened Sequences

  // ---- sorting by time ----

  predicate Sorted(records: seq<Record>) {
    forall i, j :: 0 <= i < j < |records| ==> records[i].at <= records[j].at
  }

  predicate DistinctTimes(records: seq<Record>) {
    forall i, j :: 0 <= i < j < |records| ==> records[i].at != records[j].at
  }

  ghost predicate SortOf(records: seq<Record>, sorted: seq<Record>) {
    multiset(records) == multiset(sorted) && Sorted(sorted)
  }

  lemma {:induction false} InsertMultiset<T>(s: seq<T>, k: nat, x: T)
    requires k <= |s|
    ensures multiset(s[..k] + [x] + s[k..]) == multiset(s) + multiset{x}
  {
    assert s == s[..k] + s[k..];
  }

  lemma {:induction false} TwiceAtLeast<T>(s: seq<T>, i: nat, j: nat)
    requires i < j < |s| && s[i] == s[j]
    ensures multiset(s)[s[i]] >= 2
  {
    assert s == s[..i] + [s[i]] + s[i + 1..j] + [s[j]] + s[j + 1..];
  }

  lemma {:induction false} DropLastMultiset<T>(s: seq<T>)
    requires s != []
    ensures multiset(s[..|s| - 1]) == multiset(s) - multiset{s[|s| - 1]}
  {
    assert s == s[..|s| - 1] + [s[|s| - 1]];
  }

  lemma {:induction false} InsertAt<T>(s: seq<T>, k: nat, x: T)
    requires k <= |s|
    ensures var more := s[..k] + [x] + s[k..];
      && |more| == |s| + 1 && more[k] == x
      && (forall j :: 0 <= j < k ==> more[j] == s[j])
      && (forall j :: k < j < |more| ==> more[j] == s[j - 1])
  {
  }

  lemma {:induction false} InsertSorts(sorted: seq<Record>, k: nat, r: Record)
    requires Sorted(sorted) && k <= |sorted|
    requires k > 0 ==> sorted[k - 1].at <= r.at
    requires forall j :: k <= j < |sorted| ==> r.at < sorted[j].at
    ensures Sorted(sorted[..k] + [r] + sorted[k..])
  {
    InsertAt(sorted, k, r);
    var more := sorted[..k] + [r] + sorted[k..];
    assert forall j :: 0 <= j < k ==> sorted[j].at <= r.at;
    assert Sorted(more);
  }

  // The same elements as the first i of s, in another order.
  ghost predicate SameSoFar<T>(s: seq<T>, i: nat, sorted: seq<T>) {
    i <= |s| && multiset(s[..i]) == multiset(sorted)
  }

  lemma {:induction false} InsertOneMore<T>(s: seq<T>, i: nat, sorted: seq<T>, k: nat)
    requires i < |s| && SameSoFar(s, i, sorted) && k <= |sorted|
    ensures SameSoFar(s, i + 1, sorted[..k] + [s[i]] + sorted[k..])
  {
    InsertMultiset(sorted, k, s[i]);
    assert s[..i + 1] == s[..i] + [s[i]];
  }

  lemma {:induction false} SameInTheEnd<T>(s: seq<T>, sorted: seq<T>)
    requires SameSoFar(s, |s|, sorted)
    ensures multiset(s) == multiset(sorted)
  {
    assert s[..|s|] == s;
  }

  ghost predicate SortedSoFar(records: seq<Record>, i: nat, sorted: seq<Record>) {
    SameSoFar(records, i, sorted) && Sorted(sorted)
  }

  // One insertion.
  lemma {:induction false} InsertByTime(records: seq<Record>, i: nat, sorted: seq<Record>, k: nat)
    requires SortedSoFar(records, i, sorted) && i < |records| && k <= |sorted|
    requires k > 0 ==> sorted[k - 1].at <= records[i].at
    requires forall j :: k <= j < |sorted| ==> records[i].at < sorted[j].at
    ensures SortedSoFar(records, i + 1, sorted[..k] + [records[i]] + sorted[k..])
  {
    InsertSorts(sorted, k, records[i]);
    InsertOneMore(records, i, sorted, k);
  }

  method PlaceByTime(sorted: seq<Record>, at: int) returns (k: nat)
    ensures k <= |sorted| && (k > 0 ==> sorted[k - 1].at <= at)
    ensures forall j :: k <= j < |sorted| ==> at < sorted[j].at
  {
    k := |sorted|;
    while k > 0 && sorted[k - 1].at > at
      invariant 0 <= k <= |sorted|
      invariant forall j :: k <= j < |sorted| ==> at < sorted[j].at
    {
      k := k - 1;
    }
  }

  // Some order by time; records with equal times may come in any order.
  method SortByTime(records: seq<Record>) returns (sorted: seq<Record>)
    ensures SortOf(records, sorted)
  {
    sorted := [];
    for i := 0 to |records|
      invariant SortedSoFar(records, i, sorted)
    {
      var k := PlaceByTime(sorted, records[i].at);
      InsertByTime(records, i, sorted, k);
      sorted := sorted[..k] + [records[i]] + sorted[k..];
    }
    SameInTheEnd(records, sorted);
  }

  // ---- duplicates ----

  datatype DedupeKey =
    | SameRun(task: string, run: UsageId, model: string, total: nat)
    | SameId(id: UsageId)

  function KeyFor(r: Record): DedupeKey {
    if r.run.NoId? then SameId(r.id) else SameRun(r.task, r.run, r.model, r.total)
  }

  function Keys(records: seq<Record>): set<DedupeKey> {
    set i | 0 <= i < |records| :: KeyFor(records[i])
  }

  // The first positive record of every key, in order.
  function FirstOfEach(sorted: seq<Record>): seq<Record> {
    if sorted == [] then []
    else
      var n := |sorted| - 1;
      var kept := FirstOfEach(sorted[..n]);
      if sorted[n].total > 0 && KeyFor(sorted[n]) !in Keys(kept) then kept + [sorted[n]] else kept
  }

  method DedupeUsageRecords(records: seq<Record>) returns (out: seq<Record>)
    ensures exists sorted :: SortOf(records, sorted) && out == FirstOfEach(sorted)
    ensures Deduped(records, out) && OneOfEach(records, out)
  {
    var sorted := SortByTime(records);
    var seen: set<DedupeKey> := {};
    out := [];
    for i := 0 to |sorted|
      invariant out == FirstOfEach(sorted[..i]) && seen == Keys(out)
    {
      assert sorted[..i + 1][..i] == sorted[..i];
      if sorted[i].total > 0 {
        var key := KeyFor(sorted[i]);
        if key !in seen {
          KeysAppend(out, sorted[i]);
          seen := seen + {key};
          out := out + [sorted[i]];
        }
      }
    }
    assert sorted[..|sorted|] == sorted;
    DedupeKeepsOnePerKey(records, sorted);
    DedupedIsOneOfEach(records, out);
  }

  lemma {:induction false} KeysAppend(records: seq<Record>, r: Record)
    ensures Keys(records + [r]) == Keys(records) + {KeyFor(r)}
  {
    var more := records + [r];
    forall k | k in Keys(records) + {KeyFor(r)}
      ensures k in Keys(more)
    {
      if k in Keys(records) {
        var i :| 0 <= i < |records| && KeyFor(records[i]) == k;
        assert KeyFor(more[i]) == k;
      } else {
        assert KeyFor(more[|records|]) == k;
      }
    }
  }

  ghost predicate DistinctKeys(records: seq<Record>) {
    forall i, j :: 0 <= i < j < |records| ==> KeyFor(records[i]) != KeyFor(records[j])
  }

  ghost predicate Represented(out: seq<Record>, r: Record) {
    exists i :: 0 <= i < |out| && KeyFor(out[i]) == KeyFor(r) && out[i].at <= r.at
  }

  // Exactly one record per key with a positive total, in time order, and none
  // of its key is earlier.
  ghost predicate Deduped(records: seq<Record>, out: seq<Record>) {
    && Sorted(out) && DistinctKeys(out)
    && (forall i :: 0 <= i < |out| ==> out[i] in records && out[i].total > 0)
    && (forall r :: r in records && r.total > 0 ==> Represented(out, r))
  }

  lemma {:induction false} LaterRecordFits(kept: seq<Record>, r: Record)
    requires Sorted(kept) && DistinctKeys(kept)
    requires forall i :: 0 <= i < |kept| ==> kept[i].at <= r.at && KeyFor(kept[i]) != KeyFor(r)
    ensures Sorted(kept + [r]) && DistinctKeys(kept + [r])
  {
  }

  ghost predicate Selects(sorted: seq<Record>, out: seq<Record>) {
    && (forall i :: 0 <= i < |out| ==> out[i] in sorted && out[i].total > 0)
    && Sorted(out) && DistinctKeys(out)
  }

  lemma {:induction false} SelectsMore(sorted: seq<Record>, r: Record, kept: seq<Record>)
    requires Sorted(sorted + [r]) && Selects(sorted, kept)
    ensures Selects(sorted + [r], kept)
    ensures r.total > 0 && KeyFor(r) !in Keys(kept) ==> Selects(sorted + [r], kept + [r])
  {
    var more := sorted + [r];
    assert more[|sorted|] == r;
    forall i | 0 <= i < |kept|
      ensures kept[i] in more && kept[i].at <= r.at
    {
      var j :| 0 <= j < |sorted| && sorted[j] == kept[i];
      assert more[j] == kept[i];
    }
    if KeyFor(r) !in Keys(kept) {
      assert forall i :: 0 <= i < |kept| ==> KeyFor(kept[i]) in Keys(kept);
      LaterRecordFits(kept, r);
    }
  }

  lemma {:induction false} FirstOfEachSelects(sorted: seq<Record>)
    requires Sorted(sorted)
    ensures Selects(sorted, FirstOfEach(sorted))
  {
    if sorted != [] {
      var n := |sorted| - 1;
      FirstOfEachSelects(sorted[..n]);
      assert sorted[..n] + [sorted[n]] == sorted;
      SelectsMore(sorted[..n], sorted[n], FirstOfEach(sorted[..n]));
    }
  }

  lemma {:induction false} RepresentedGrows(out: seq<Record>, more: Record, r: Record)
    requires Represented(out, r) || more == r
    ensures Represented(out + [more], r)
  {
    if Represented(out, r) {
      var i :| 0 <= i < |out| && KeyFor(out[i]) == KeyFor(r) && out[i].at <= r.at;
      assert (out + [more])[i] == out[i];
    } else {
      assert (out + [more])[|out|] == r;
    }
  }

  lemma {:induction false} FirstOfEachRepresents(sorted: seq<Record>, r: Record)
    requires Sorted(sorted) && r in sorted && r.total > 0
    ensures Represented(FirstOfEach(sorted), r)
  {
    var n := |sorted| - 1;
    var kept := FirstOfEach(sorted[..n]);
    assert sorted == sorted[..n] + [sorted[n]];
    if r in sorted[..n] {
      FirstOfEachRepresents(sorted[..n], r);
      RepresentedGrows(kept, sorted[n], r);
    } else if KeyFor(r) in Keys(kept) {
      FirstOfEachSelects(sorted[..n]);
      var i :| 0 <= i < |kept| && KeyFor(kept[i]) == KeyFor(r);
      assert kept[i] in sorted[..n];
      assert Represented(kept, r);
    } else {
      RepresentedGrows(kept, r, r);
    }
  }

  lemma {:induction false} FirstOfEachDedupes(sorted: seq<Record>)
    requires Sorted(sorted)
    ensures Deduped(sorted, FirstOfEach(sorted))
  {
    FirstOfEachSelects(sorted);
    forall r | r in sorted && r.total > 0
      ensures Represented(FirstOfEach(sorted), r)
    {
      FirstOfEachRepresents(sorted, r);
    }
  }

  lemma {:induction false} DedupeKeepsOnePerKey(records: seq<Record>, sorted: seq<Record>)
    requires SortOf(records, sorted)
    ensures Deduped(records, FirstOfEach(sorted))
  {
    FirstOfEachDedupes(sorted);
    SameMembers(records, sorted);
  }

  lemma {:induction false} SameMembers(a: seq<Record>, b: seq<Record>)
    requires multiset(a) == multiset(b)
    ensures forall r :: r in a <==> r in b
  {
    assert forall r :: r in a <==> r in multiset(a);
    assert forall r :: r in b <==> r in multiset(b);
  }

  // ---- doing it twice ----

  lemma {:induction false} KeepsDistinct(sorted: seq<Record>)
    requires DistinctKeys(sorted) && forall i :: 0 <= i < |sorted| ==> sorted[i].total > 0
    ensures FirstOfEach(sorted) == sorted
  {
    if sorted != [] {
      var n := |sorted| - 1;
      KeepsDistinct(sorted[..n]);
      assert sorted == sorted[..n] + [sorted[n]];
    }
  }

  lemma {:induction false} DistinctKeysOfPermutation(a: seq<Record>, b: seq<Record>)
    requires multiset(a) == multiset(b) && DistinctKeys(a)
    ensures DistinctKeys(b)
  {
    SameMembers(a, b);
    forall i, j | 0 <= i < j < |b|
      ensures KeyFor(b[i]) != KeyFor(b[j])
    {
      if KeyFor(b[i]) == KeyFor(b[j]) {
        assert b[i] in a && b[j] in a;
        var p :| 0 <= p < |a| && a[p] == b[i];
        var q :| 0 <= q < |a| && a[q] == b[j];
        assert p == q;
        OnceOnly(a, p);
        TwiceAtLeast(b, i, j);
      }
    }
  }

  lemma {:induction false} OnceOnly(a: seq<Record>, p: nat)
    requires p < |a| && DistinctKeys(a)
    ensures multiset(a)[a[p]] == 1
  {
    assert a == a[..p] + [a[p]] + a[p + 1..];
    assert a[p] !in a[..p] && a[p] !in a[p + 1..];
  }

  // Deduplicating twice only reorders records with equal times.
  lemma {:induction false} DedupeIsIdempotent(records: seq<Record>, out: seq<Record>, again: seq<Record>)
    requires Deduped(records, out) && SortOf(out, again)
    ensures FirstOfEach(again) == again
    ensures DistinctTimes(out) ==> again == out
  {
    DistinctKeysOfPermutation(out, again);
    SameMembers(out, again);
    forall i | 0 <= i < |again|
      ensures again[i].total > 0
    {
      assert again[i] in out;
    }
    KeepsDistinct(again);
    if DistinctTimes(out) {
      SortedPermutationIsUnique(out, again);
    }
  }

  lemma {:induction false} DropLastSorted(a: seq<Record>, b: seq<Record>)
    requires SortOf(a, b) && Sorted(a) && DistinctTimes(a) && |a| == |b| > 0 && a[|a| - 1] == b[|b| - 1]
    ensures SortOf(a[..|a| - 1], b[..|b| - 1]) && Sorted(a[..|a| - 1]) && DistinctTimes(a[..|a| - 1])
  {
    DropLastMultiset(a);
    DropLastMultiset(b);
  }

  lemma {:induction false} LatestComesLast(a: seq<Record>, b: seq<Record>)
    requires SortOf(a, b) && Sorted(a) && a != [] && DistinctTimes(a)
    ensures |a| == |b| && a[|a| - 1] == b[|b| - 1]
  {
    assert |a| == |multiset(a)| == |multiset(b)| == |b|;
    var n := |a| - 1;
    SameMembers(a, b);
    assert a[n] in b && b[n] in a;
    var j :| 0 <= j <= n && b[j] == a[n];
    var i :| 0 <= i <= n && a[i] == b[n];
    assert a[i].at <= a[n].at && b[j].at <= b[n].at;
  }

  lemma {:induction false} SortedPermutationIsUnique(a: seq<Record>, b: seq<Record>)
    requires SortOf(a, b) && Sorted(a) && DistinctTimes(a)
    ensures a == b
    decreases |a|
  {
    if a == [] {
      assert |b| == |multiset(b)|;
    } else {
      LatestComesLast(a, b);
      DropLastSorted(a, b);
      SortedPermutationIsUnique(a[..|a| - 1], b[..|b| - 1]);
      assert a == a[..|a| - 1] + [a[|a| - 1]];
      assert b == b[..|b| - 1] + [b[|b| - 1]];
    }
  }

  // ---- the summary ----

  datatype ModelSummary = ModelSummary(model: string, tokens: nat, runs: nat)

  const MAX_MODELS := 20

  function ModelName(r: Record): string {
    if r.model == "" then "unknown" else r.model
  }

  function SumTokens(records: seq<Record>): nat {
    if records == [] then 0 else SumTokens(records[..|records| - 1]) + records[|records| - 1].total
  }

  function OfModel(records: seq<Record>, model: string): seq<Record> {
    if records == [] then []
    else
      var n := |records| - 1;
      if ModelName(records[n]) == model
        then OfModel(records[..n], model) + [records[n]] else OfModel(records[..n], model)
  }

  function SummaryOf(records: seq<Record>, model: string): ModelSummary {
    ModelSummary(model, SumTokens(OfModel(records, model)), |OfModel(records, model)|)
  }

  // One entry per model that occurs, with that model's totals.
  ghost predicate Groups(records: seq<Record>, all: seq<ModelSummary>) {
    && (forall i, j :: 0 <= i < j < |all| ==> all[i].model != all[j].model)
    && (forall i :: 0 <= i < |all| ==> all[i] == SummaryOf(records, all[i].model))
    && (forall r :: r in records ==> Listed(all, ModelName(r)))
  }

  ghost predicate Listed(all: seq<ModelSummary>, m: string) {
    exists i :: 0 <= i < |all| && all[i].model == m
  }

  function AllTokens(all: seq<ModelSummary>): nat {
    if all == [] then 0 else AllTokens(all[..|all| - 1]) + all[|all| - 1].tokens
  }

  function AllRuns(all: seq<ModelSummary>): nat {
    if all == [] then 0 else AllRuns(all[..|all| - 1]) + all[|all| - 1].runs
  }

  predicate Descending(all: seq<ModelSummary>) {
    forall i, j :: 0 <= i < j < |all| ==> all[i].tokens >= all[j].tokens
  }

  lemma {:induction false} SumAppend(records: seq<Record>, r: Record, model: string)
    ensures SumTokens(records + [r]) == SumTokens(records) + r.total
    ensures OfModel(records + [r], model) ==
      if ModelName(r) == model then OfModel(records, model) + [r] else OfModel(records, model)
  {
    assert (records + [r])[..|records|] == records;
  }

  lemma {:induction false} SummaryAppend(records: seq<Record>, r: Record, model: string)
    ensures var before, after := SummaryOf(records, model), SummaryOf(records + [r], model);
      if ModelName(r) == model
      then after == ModelSummary(model, before.tokens + r.total, before.runs + 1)
      else after == before
  {
    SumAppend(records, r, model);
    SumAppend(OfModel(records, model), r, model);
  }

  // The map the loop builds.
  function Tally(records: seq<Record>): map<string, ModelSummary> {
    if records == [] then map[] else Counted(Tally(records[..|records| - 1]), records[|records| - 1])
  }

  function Counted(before: map<string, ModelSummary>, r: Record): map<string, ModelSummary> {
    var model := ModelName(r);
    var ms := if model in before then before[model] else ModelSummary(model, 0, 0);
    before[model := ms.(tokens := ms.tokens + r.total, runs := ms.runs + 1)]
  }

  ghost predicate ExactAt(byModel: map<string, ModelSummary>, records: seq<Record>, m: string) {
    SummaryOf(records, m) == if m in byModel then byModel[m] else ModelSummary(m, 0, 0)
  }

  lemma {:induction false} CountedIsExact(byModel: map<string, ModelSummary>, records: seq<Record>, r: Record,
        m: string)
    requires ExactAt(byModel, records, m)
    ensures ExactAt(Counted(byModel, r), records + [r], m)
  {
    SummaryAppend(records, r, m);
  }

  lemma {:induction false} TallyIsExact(records: seq<Record>, m: string)
    ensures ExactAt(Tally(records), records, m)
  {
    if records != [] {
      var n := |records| - 1;
      TallyIsExact(records[..n], m);
      CountedIsExact(Tally(records[..n]), records[..n], records[n], m);
      assert records == records[..n] + [records[n]];
    }
  }

  lemma {:induction false} TallyIsComplete(records: seq<Record>)
    ensures forall r :: r in records ==> ModelName(r) in Tally(records)
  {
    if records != [] {
      var n := |records| - 1;
      TallyIsComplete(records[..n]);
      assert records == records[..n] + [records[n]];
    }
  }

  // The loop over the records.
  method CountUsage(records: seq<Record>) returns (total: nat, byModel: map<string, ModelSummary>)
    ensures total == SumTokens(records) && byModel == Tally(records)
  {
    total, byModel := 0, map[];
    for i := 0 to |records|
      invariant total == SumTokens(records[..i]) && byModel == Tally(records[..i])
    {
      var r := records[i];
      assert records[..i + 1][..i] == records[..i];
      total := total + r.total;
      var model := ModelName(r);
      var ms := if model in byModel then byModel[model] else ModelSummary(model, 0, 0);
      byModel := byModel[model := ms.(tokens := ms.tokens + r.total, runs := ms.runs + 1)];
    }
    assert records[..|records|] == records;
  }

  // The models kept and the models cut off.
  method SummarizeUsage(records: seq<Record>)
    returns (total: nat, models: seq<ModelSummary>, dropped: seq<ModelSummary>)
    ensures total == SumTokens(records) == AllTokensOf(records)
    ensures Groups(records, models + dropped) && CountsModels(records, models + dropped)
    ensures forall i, j :: 0 <= i < j < |models + dropped| ==>
      (models + dropped)[i].tokens >= (models + dropped)[j].tokens
    ensures |models| <= 20 && (dropped != [] ==> |models| == 20)
  {
    var byModel;
    total, byModel := CountUsage(records);
    TallyNames(records);
    var listed := ListModels(byModel);
    var all := SortByTokens(listed);
    TallyGroups(records, byModel, all);
    if |all| > MAX_MODELS {
      models, dropped := all[..MAX_MODELS], all[MAX_MODELS..];
    } else {
      models, dropped := all, [];
    }
    assert models + dropped == all;
    GroupsCountModels(records, all);
    SummaryIsCounted(records, "");
  }

  ghost predicate EntriesOf(byModel: map<string, ModelSummary>, all: seq<ModelSummary>) {
    multiset(all) == multiset(byModel.Values)
  }

  lemma {:induction false} EntriesGroup(records: seq<Record>, byModel: map<string, ModelSummary>,
        all: seq<ModelSummary>)
    requires EntriesOf(byModel, all)
    requires forall m :: m in byModel ==> byModel[m] == SummaryOf(records, m)
    requires forall r :: r in records ==> ModelName(r) in byModel
    ensures Groups(records, all)
  {
    forall i | 0 <= i < |all|
      ensures all[i].model in byModel && all[i] == byModel[all[i].model]
    {
      assert all[i] in multiset(all);
    }
    forall i, j | 0 <= i < j < |all|
      ensures all[i].model != all[j].model
    {
      if all[i] == all[j] {
        TwiceAtLeast(all, i, j);
      }
    }
    forall r | r in records
      ensures Listed(all, ModelName(r))
    {
      assert byModel[ModelName(r)] in byModel.Values;
      assert byModel[ModelName(r)] in multiset(all);
      var i :| 0 <= i < |all| && all[i] == byModel[ModelName(r)];
    }
  }

  // The map's entries in any order.
  method ListModels(byModel: map<string, ModelSummary>) returns (all: seq<ModelSummary>)
    requires forall m :: m in byModel ==> byModel[m].model == m
    ensures EntriesOf(byModel, all)
  {
    var rest := byModel.Keys;
    ghost var seen: set<ModelSummary> := {};
    all := [];
    while rest != {}
      invariant rest <= byModel.Keys
      invariant seen == set m | m in byModel.Keys - rest :: byModel[m]
      invariant multiset(all) == multiset(seen)
      decreases rest
    {
      var m :| m in rest;
      assert byModel[m] !in seen;
      rest, seen := rest - {m}, seen + {byModel[m]};
      all := all + [byModel[m]];
    }
    assert seen == byModel.Values;
  }

  lemma {:induction false} InsertDescends(sorted: seq<ModelSummary>, k: nat, ms: ModelSummary)
    requires Descending(sorted) && k <= |sorted|
    requires k > 0 ==> sorted[k - 1].tokens >= ms.tokens
    requires forall j :: k <= j < |sorted| ==> ms.tokens > sorted[j].tokens
    ensures Descending(sorted[..k] + [ms] + sorted[k..])
  {
    InsertAt(sorted, k, ms);
    var more := sorted[..k] + [ms] + sorted[k..];
    assert forall j :: 0 <= j < k ==> sorted[j].tokens >= ms.tokens;
    assert Descending(more);
  }

  ghost predicate DescendingSoFar(all: seq<ModelSummary>, i: nat, sorted: seq<ModelSummary>) {
    SameSoFar(all, i, sorted) && Descending(sorted)
  }

  // One insertion.
  lemma {:induction false} InsertByTokens(all: seq<ModelSummary>, i: nat, sorted: seq<ModelSummary>, k: nat)
    requires DescendingSoFar(all, i, sorted) && i < |all| && k <= |sorted|
    requires k > 0 ==> sorted[k - 1].tokens >= all[i].tokens
    requires forall j :: k <= j < |sorted| ==> all[i].tokens > sorted[j].tokens
    ensures DescendingSoFar(all, i + 1, sorted[..k] + [all[i]] + sorted[k..])
  {
    InsertDescends(sorted, k, all[i]);
    InsertOneMore(all, i, sorted, k);
  }

  method PlaceByTokens(sorted: seq<ModelSummary>, tokens: nat) returns (k: nat)
    ensures k <= |sorted| && (k > 0 ==> sorted[k - 1].tokens >= tokens)
    ensures forall j :: k <= j < |sorted| ==> tokens > sorted[j].tokens
  {
    k := |sorted|;
    while k > 0 && sorted[k - 1].tokens < tokens
      invariant 0 <= k <= |sorted|
      invariant forall j :: k <= j < |sorted| ==> tokens > sorted[j].tokens
    {
      k := k - 1;
    }
  }

  // Some order by falling totals; ties come in any order.
  method SortByTokens(all: seq<ModelSummary>) returns (sorted: seq<ModelSummary>)
    ensures multiset(sorted) == multiset(all) && Descending(sorted)
  {
    sorted := [];
    for i := 0 to |all|
      invariant DescendingSoFar(all, i, sorted)
    {
      var k := PlaceByTokens(sorted, all[i].tokens);
      InsertByTokens(all, i, sorted, k);
      sorted := sorted[..k] + [all[i]] + sorted[k..];
    }
    SameInTheEnd(all, sorted);
  }

  lemma {:induction false} TallyEntries(records: seq<Record>)
    ensures forall m :: m in Tally(records) ==> Tally(records)[m] == SummaryOf(records, m)
  {
    forall m
      ensures m in Tally(records) ==> Tally(records)[m] == SummaryOf(records, m)
    {
      TallyIsExact(records, m);
    }
  }

  lemma {:induction false} TallyNames(records: seq<Record>)
    ensures forall m :: m in Tally(records) ==> Tally(records)[m].model == m
  {
    TallyEntries(records);
  }

  lemma {:induction false} TallyGroups(records: seq<Record>, byModel: map<string, ModelSummary>, all: seq<ModelSummary>)
    requires byModel == Tally(records) && EntriesOf(byModel, all)
    ensures Groups(records, all)
  {
    TallyEntries(records);
    TallyIsComplete(records);
    EntriesGroup(records, byModel, all);
  }

  // ---- conservation ----

  function Without(records: seq<Record>, model: string): seq<Record> {
    if records == [] then []
    else
      var n := |records| - 1;
      if ModelName(records[n]) == model
        then Without(records[..n], model) else Without(records[..n], model) + [records[n]]
  }

  lemma {:induction false} WithoutSplits(records: seq<Record>, model: string)
    ensures SumTokens(records) == SumTokens(OfModel(records, model)) + SumTokens(Without(records, model))
    ensures |records| == |OfModel(records, model)| + |Without(records, model)|
  {
    if records != [] {
      var n := |records| - 1;
      var r := records[n];
      WithoutSplits(records[..n], model);
      SumAppend(OfModel(records[..n], model), r, model);
      SumAppend(Without(records[..n], model), r, model);
    }
  }

  lemma {:induction false} WithoutMembers(records: seq<Record>, model: string)
    ensures forall r :: r in Without(records, model) <==> r in records && ModelName(r) != model
  {
    if records != [] {
      var n := |records| - 1;
      WithoutMembers(records[..n], model);
      assert records == records[..n] + [records[n]];
    }
  }

  lemma {:induction false} WithoutKeepsOthers(records: seq<Record>, model: string, other: string)
    requires model != other
    ensures OfModel(Without(records, model), other) == OfModel(records, other)
  {
    if records != [] {
      var n := |records| - 1;
      WithoutKeepsOthers(records[..n], model, other);
      SumAppend(Without(records[..n], model), records[n], other);
    }
  }

  lemma {:induction false} ListedShrinks(records: seq<Record>, all: seq<ModelSummary>, m: string)
    requires Groups(records, all) && all != [] && all[|all| - 1].model != m
    requires Listed(all, m)
    ensures Listed(all[..|all| - 1], m)
  {
    var i :| 0 <= i < |all| && all[i].model == m;
    assert all[..|all| - 1][i] == all[i];
  }

  // Setting one model aside, with its records.
  lemma {:induction false} GroupsShrink(records: seq<Record>, all: seq<ModelSummary>)
    requires Groups(records, all) && all != []
    ensures Groups(Without(records, all[|all| - 1].model), all[..|all| - 1])
  {
    var n := |all| - 1;
    var m := all[n].model;
    var rest, head := Without(records, m), all[..n];
    forall i | 0 <= i < n
      ensures head[i] == SummaryOf(rest, head[i].model)
    {
      assert head[i] == all[i] && all[i].model != m;
      WithoutKeepsOthers(records, m, all[i].model);
    }
    assert forall i, j :: 0 <= i < j < n ==> head[i].model != head[j].model;
    WithoutMembers(records, m);
    forall r | r in rest
      ensures Listed(head, ModelName(r))
    {
      ListedShrinks(records, all, ModelName(r));
    }
  }

  // The totals of all models add up to the grand total, and their run counts to
  // the number of records.
  lemma {:induction false} SummaryConserves(records: seq<Record>, all: seq<ModelSummary>)
    requires Groups(records, all)
    ensures AllTokens(all) == SumTokens(records) && AllRuns(all) == |records|
    decreases |all|
  {
    if records != [] {
      assert Listed(all, ModelName(records[0]));
    }
    if all != [] {
      var m := all[|all| - 1].model;
      GroupsShrink(records, all);
      WithoutSplits(records, m);
      SummaryConserves(Without(records, m), all[..|all| - 1]);
    }
  }

  // No model that was cut off has more tokens than one that was kept.
  lemma {:induction false} NoDroppedModelBeatsAKeptOne(models: seq<ModelSummary>, dropped: seq<ModelSummary>,
        i: nat, j: nat)
    requires Descending(models + dropped) && i < |models| && j < |dropped|
    ensures models[i].tokens >= dropped[j].tokens
  {
    var all := models + dropped;
    assert all[i] == models[i] && all[|models| + j] == dropped[j];
  }

  // ---- said of the records themselves ----

  // Two records of the same report: of one run, model and total if both name a run,
  // or with one identifier if neither does.
  predicate SameReport(a: Record, b: Record) {
    if a.run.NoId? || b.run.NoId? then a.run.NoId? && b.run.NoId? && a.id == b.id
    else a.task == b.task && a.run == b.run && a.model == b.model && a.total == b.total
  }

  lemma {:induction false} KeysTellReports(a: Record, b: Record)
    ensures KeyFor(a) == KeyFor(b) <==> SameReport(a, b)
  {
  }

  // Of the records that count any tokens one of each report is left, an earliest
  // one, and those left are in the order of time.
  ghost predicate OneOfEach(records: seq<Record>, out: seq<Record>) {
    && (forall i, j :: 0 <= i < j < |out| ==> out[i].at <= out[j].at && !SameReport(out[i], out[j]))
    && (forall i :: 0 <= i < |out| ==> out[i] in records && out[i].total > 0)
    && (forall r :: r in records && r.total > 0 ==> HasEarliest(out, r))
  }

  ghost predicate HasEarliest(out: seq<Record>, r: Record) {
    exists i :: 0 <= i < |out| && SameReport(out[i], r) && out[i].at <= r.at
  }

  lemma {:induction false} DedupedIsOneOfEach(records: seq<Record>, out: seq<Record>)
    requires Deduped(records, out)
    ensures OneOfEach(records, out)
  {
    forall i, j | 0 <= i < j < |out|
      ensures !SameReport(out[i], out[j])
    {
      KeysTellReports(out[i], out[j]);
    }
    forall r | r in records && r.total > 0
      ensures HasEarliest(out, r)
    {
      assert Represented(out, r);
      var i :| 0 <= i < |out| && KeyFor(out[i]) == KeyFor(r) && out[i].at <= r.at;
      KeysTellReports(out[i], r);
    }
  }

  // The tokens and the records that count for a model.
  function TokensOf(records: seq<Record>, model: string): nat {
    if records == [] then 0
    else (if CountsFor(records[0], model) then records[0].total else 0) + TokensOf(records[1..], model)
  }

  function RunsOf(records: seq<Record>, model: string): nat {
    if records == [] then 0 else (if CountsFor(records[0], model) then 1 else 0) + RunsOf(records[1..], model)
  }

  predicate CountsFor(r: Record, model: string) {
    if |r.model| == 0 then model == "unknown" else r.model == model
  }

  function AllTokensOf(records: seq<Record>): nat {
    if records == [] then 0 else records[0].total + AllTokensOf(records[1..])
  }

  lemma {:induction false} FirstRecord(records: seq<Record>, model: string)
    requires records != []
    ensures OfModel(records, model) ==
      (if CountsFor(records[0], model) then [records[0]] else []) + OfModel(records[1..], model)
    decreases |records|
  {
    var n := |records| - 1;
    if n == 0 {
      assert records[..n] == [] && records[1..] == [];
    } else {
      FirstRecord(records[..n], model);
      assert records[..n][1..] == records[1..][..n - 1];
      Regroup(if CountsFor(records[0], model) then [records[0]] else [], OfModel(records[1..][..n - 1], model),
        [records[n]]);
    }
  }

  lemma {:induction false} FirstToken(r: Record, rest: seq<Record>)
    ensures SumTokens([r] + rest) == r.total + SumTokens(rest)
  {
    if rest == [] {
      assert ([r] + rest)[..0] == [];
    } else {
      FirstToken(r, rest[..|rest| - 1]);
      DropLast([r], rest);
    }
  }

  lemma {:induction false} SummaryIsCounted(records: seq<Record>, model: string)
    ensures SummaryOf(records, model) == ModelSummary(model, TokensOf(records, model), RunsOf(records, model))
    ensures SumTokens(records) == AllTokensOf(records)
    decreases |records|
  {
    if records != [] {
      var rest := records[1..];
      SummaryIsCounted(rest, model);
      FirstRecord(records, model);
      assert records == [records[0]] + rest;
      FirstToken(records[0], rest);
      if CountsFor(records[0], model) {
        FirstToken(records[0], OfModel(rest, model));
      } else {
        assert [] + OfModel(rest, model) == OfModel(rest, model);
      }
    }
  }

  // One entry for every model that occurs, with the tokens and the number of its
  // records.
  ghost predicate CountsModels(records: seq<Record>, all: seq<ModelSummary>) {
    && (forall i, j :: 0 <= i < j < |all| ==> all[i].model != all[j].model)
    && (forall i :: 0 <= i < |all| ==> EntryCounts(records, all[i]))
    && (forall k :: 0 <= k < |records| ==> HasEntry(all, records[k]))
  }

  predicate EntryCounts(records: seq<Record>, entry: ModelSummary) {
    entry.tokens == TokensOf(records, entry.model) && entry.runs == RunsOf(records, entry.model)
  }

  ghost predicate HasEntry(all: seq<ModelSummary>, r: Record) {
    exists i :: 0 <= i < |all| && CountsFor(r, all[i].model)
  }

  lemma {:induction false} ListedHasEntry(all: seq<ModelSummary>, r: Record)
    requires Listed(all, ModelName(r))
    ensures HasEntry(all, r)
  {
    var i :| 0 <= i < |all| && all[i].model == ModelName(r);
    assert CountsFor(r, all[i].model);
  }

  lemma {:induction false} GroupsCountModels(records: seq<Record>, all: seq<ModelSummary>)
    requires Groups(records, all)
    ensures CountsModels(records, all)
  {
    forall i | 0 <= i < |all|
      ensures EntryCounts(records, all[i])
    {
      SummaryIsCounted(records, all[i].model);
    }
    forall k | 0 <= k < |records|
      ensures HasEntry(all, records[k])
    {
      ListedHasEntry(all, records[k]);
    }
  }
}
