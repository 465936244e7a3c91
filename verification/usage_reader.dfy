/** What the recorder writes and what the reader makes of it, said of the lines
    themselves: which line is written, which line yields a record, and what that
    record holds. */
module UsageReader {
  import opened Options
  import opened Text
  import opened Usage

  // All events come from one agent.
  ghost predicate AllFrom(events: seq<Event>, h: Header) {
    forall i :: 0 <= i < |events| ==> events[i].header == h
  }

  // ---- which lines yield a record ----

  // A "tokens used" line that states no count waits at `i` for a number line; a
  // model line or a number line ends the waiting.
  ghost predicate Awaited(events: seq<Event>, i: nat)
    requires i <= |events|
  {
    exists j :: 0 <= j < i && events[j].line.used && events[j].line.detail.None? &&
      forall k :: j < k < i ==> events[k].line.model.None? && events[k].line.number.None?
  }

  // A stated total, or a number that was waited for.
  ghost predicate Reports(events: seq<Event>, i: nat)
    requires i < |events|
  {
    var l := events[i].line;
    (l.detail.Some? && l.detail.value.0 == Total) || (l.number.Some? && Awaited(events, i))
  }

  // ---- what a record holds ----

  // The last model line.
  function ModelLine(events: seq<Event>): Option<Event> {
    if events == [] then None
    else
      var n := |events| - 1;
      if events[n].line.model.Some? then Some(events[n]) else ModelLine(events[..n])
  }

  function LastModel(events: seq<Event>): string {
    var e := ModelLine(events);
    if e.Some? && e.value.line.model.Some? then e.value.line.model.value else ""
  }

  // The last count of a kind since the last model line or record.
  ghost function Count(events: seq<Event>, kind: Detail): nat {
    if events == [] then 0
    else
      var n := |events| - 1;
      var l := events[n].line;
      if l.model.Some? || Reports(events, n) then 0
      else if l.detail.Some? && l.detail.value.0 == kind then l.detail.value.1
      else Count(events[..n], kind)
  }

  // Blanks around the source type and the case of its letters do not matter.
  predicate Spells(sourceType: string, word: string) {
    var trimmed := Trim(sourceType);
    |trimmed| == |word| && forall k :: 0 <= k < |word| ==> SameLetter(trimmed[k], word[k])
  }

  predicate SameLetter(c: char, small: char) {
    c == small || ('A' <= c <= 'Z' && 'a' <= small <= 'z' && c - 'A' == small - 'a')
  }

  function DisplayName(sourceType: string): string {
    if Spells(sourceType, "gardener") then "Gardener" else if Spells(sourceType, "tree") then "Tree" else "Agent"
  }

  lemma {:induction false} SpellsExactly(sourceType: string, word: string)
    requires forall k :: 0 <= k < |word| ==> 'a' <= word[k] <= 'z'
    ensures Spells(sourceType, word) <==> Lower(Trim(sourceType)) == word
  {
    var trimmed := Trim(sourceType);
    if |trimmed| == |word| {
      assert forall k :: 0 <= k < |word| ==> (SameLetter(trimmed[k], word[k]) <==> Lower(trimmed)[k] == word[k]);
    }
  }

  lemma {:induction false} NameIsDisplayed(sourceType: string)
    ensures SafeSourceName(sourceType) == DisplayName(sourceType)
  {
    SpellsExactly(sourceType, "gardener");
    SpellsExactly(sourceType, "tree");
  }

  // The counts of the lines before, and the total stated by the last line.
  ghost predicate CountsOf(before: seq<Event>, l: Line, r: Record) {
    && r.input == Count(before, Input) && r.cached == Count(before, CachedInput) && r.output == Count(before, Output)
    && r.total == if Stated(l) > 0 then Stated(l) else r.input + r.cached + r.output
  }

  // Run and record have the identifiers that the file gives, or else stable ones.
  ghost predicate IdsOf(before: seq<Event>, h: Header, r: Record) {
    && r.run == (
         if h.run != "" then Given(h.run)
         else match ModelLine(before)
           case Some(e) =>
             ModelRun(h.task, h.sourceType, h.sourceId, h.sourceName, e.at, LastModel(before))
           case None =>
             TotalRun(h.task, h.sourceType, h.sourceId, h.sourceName, r.at, r.model, r.total))
    && r.id == RecordId(h.task, r.run, h.sourceType, h.sourceId, r.model, r.total, r.at)
  }

  // The record of event `e` after the events `before`.
  ghost predicate IsRecordOf(before: seq<Event>, e: Event, h: Header, r: Record) {
    && r.task == h.task && r.at == e.at && r.sourceId == h.sourceId
    && r.sourceType == (if Blank(h.sourceType) then "agent" else h.sourceType)
    && r.sourceName == DisplayName(h.sourceType)
    && r.model == (if LastModel(before) == "" then "unknown" else LastModel(before))
    && CountsOf(before, e.line, r)
    && IdsOf(before, h, r)
  }

  // ---- one line more ----

  lemma {:induction false} AwaitedGrows(events: seq<Event>, e: Event)
    ensures Awaited(events + [e], |events| + 1) <==>
      if e.line.model.Some? then false
      else if e.line.detail.Some? then Awaited(events, |events|)
      else if e.line.used then true
      else if e.line.number.Some? then false
      else Awaited(events, |events|)
  {
    var more, n := events + [e], |events|;
    assert more[n] == e;
    if Awaited(more, n + 1) {
      var j :| 0 <= j < n + 1 && more[j].line.used && more[j].line.detail.None? &&
        forall k :: j < k < n + 1 ==> more[k].line.model.None? && more[k].line.number.None?;
      if j < n {
        assert events[j] == more[j] && forall k :: j < k < n ==> events[k] == more[k];
      }
    }
    if Awaited(events, n) && e.line.model.None? && e.line.number.None? {
      var j :| 0 <= j < n && events[j].line.used && events[j].line.detail.None? &&
        forall k :: j < k < n ==> events[k].line.model.None? && events[k].line.number.None?;
      assert more[j] == events[j] && forall k :: j < k < n ==> events[k] == more[k];
    }
  }

  lemma {:induction false} AwaitedOfPrefix(events: seq<Event>, e: Event)
    ensures Awaited(events + [e], |events|) <==> Awaited(events, |events|)
  {
    var more := events + [e];
    assert forall k :: 0 <= k < |events| ==> more[k] == events[k];
  }

  lemma {:induction false} ReportsAtEnd(events: seq<Event>, e: Event)
    ensures Reports(events + [e], |events|) <==>
      (e.line.detail.Some? && e.line.detail.value.0 == Total) || (e.line.number.Some? && Awaited(events, |events|))
  {
    AwaitedOfPrefix(events, e);
  }

  lemma {:induction false} CountGrows(events: seq<Event>, e: Event, kind: Detail)
    ensures Count(events + [e], kind) ==
      if e.line.model.Some? || Reports(events + [e], |events|) then 0
      else if e.line.detail.Some? && e.line.detail.value.0 == kind then e.line.detail.value.1
      else Count(events, kind)
  {
    assert (events + [e])[..|events|] == events;
  }

  lemma {:induction false} ModelLineGrows(events: seq<Event>, e: Event)
    ensures ModelLine(events + [e]) == if e.line.model.Some? then Some(e) else ModelLine(events)
  {
    assert (events + [e])[..|events|] == events;
  }

  // ---- the reader's state ----

  // What the state knows of the lines: whether a number is awaited, and the counts.
  ghost predicate KnowsCounts(events: seq<Event>, st: Stream) {
    && (st.expectTotal <==> Awaited(events, |events|))
    && st.input == Count(events, Input) && st.cached == Count(events, CachedInput) && st.output == Count(events, Output)
  }

  // And the model and whose they are.
  ghost predicate KnowsSource(events: seq<Event>, h: Header, st: Stream) {
    && st.model == LastModel(events)
    && st.sourceType == h.sourceType && st.sourceId == h.sourceId && st.sourceName == h.sourceName
    && st.external == (h.run != "")
    && st.run == (
         if h.run != "" then Given(h.run)
         else match ModelLine(events)
           case Some(e) => ModelRun(h.task, h.sourceType, h.sourceId, h.sourceName, e.at, LastModel(events))
           case None => NoId)
  }

  lemma {:induction false} LineKeepsCounts(events: seq<Event>, e: Event, st: Stream)
    requires KnowsCounts(events, st)
    ensures KnowsCounts(events + [e], Consume(st, e.line, e.at, e.header.task).0)
  {
    AwaitedGrows(events, e);
    ReportsAtEnd(events, e);
    CountGrows(events, e, Input);
    CountGrows(events, e, CachedInput);
    CountGrows(events, e, Output);
  }

  lemma {:induction false} LineKeepsSource(events: seq<Event>, e: Event, h: Header, st: Stream)
    requires KnowsSource(events, h, st) && e.header == h
    ensures KnowsSource(events + [e], h, Consume(st, e.line, e.at, e.header.task).0)
  {
    ModelLineGrows(events, e);
  }

  lemma {:induction false} LineYields(events: seq<Event>, e: Event, h: Header, st: Stream)
    requires KnowsCounts(events, st) && KnowsSource(events, h, st) && e.header == h
    ensures var record := Consume(st, e.line, e.at, e.header.task).1;
      && (record.Some? <==> Reports(events + [e], |events|))
      && (record.Some? ==> IsRecordOf(events, e, h, record.value))
  {
    ReportsAtEnd(events, e);
    NameIsDisplayed(h.sourceType);
  }

  ghost predicate Knows(events: seq<Event>, h: Header, st: Stream) {
    KnowsCounts(events, st) && KnowsSource(events, h, st)
  }

  lemma {:induction false} ReaderKnows(events: seq<Event>, h: Header)
    requires AllFrom(events, h)
    ensures Knows(events, h, StreamAt(Parse(events).streams, h))
  {
    if events != [] {
      var n := |events| - 1;
      var before, e := events[..n], events[n];
      ReaderKnows(before, h);
      var st := StreamAt(Parse(before).streams, h);
      LineKeepsCounts(before, e, st);
      LineKeepsSource(before, e, h, st);
      assert events == before + [e];
    }
  }

  // ---- the theorem ----

  // What line `i` of an agent's file adds to the records that are read: one record
  // if the line states a total or is a number that was waited for, and nothing
  // otherwise.
  ghost predicate Adds(events: seq<Event>, i: nat, h: Header, before: seq<(Key, Record)>, after: seq<(Key, Record)>)
    requires i < |events|
  {
    if Reports(events, i) then
      |after| == |before| + 1 && after[..|before|] == before && after[|before|].0 == KeyOf(h) &&
      IsRecordOf(events[..i], events[i], h, after[|before|].1)
    else after == before
  }

  lemma {:induction false} ReadsExactly(events: seq<Event>, h: Header, i: nat)
    requires AllFrom(events, h) && i < |events|
    ensures Adds(events, i, h, Parse(events[..i]).records, Parse(events[..i + 1]).records)
  {
    var before, e := events[..i], events[i];
    assert events[..i + 1] == before + [e];
    ReaderKnows(before, h);
    LineYields(before, e, h, StreamAt(Parse(before).streams, h));
    ParsePrefix(before, e);
    ReportsOfPrefix(events, i);
  }

  lemma {:induction false} ReportsOfPrefix(events: seq<Event>, i: nat)
    requires i < |events|
    ensures Reports(events[..i] + [events[i]], i) <==> Reports(events, i)
  {
    var some := events[..i] + [events[i]];
    assert forall k :: 0 <= k <= i ==> some[k] == events[k];
  }

  // ---- the agents of a file ----

  // Lines come from one agent if they name the same run, or else no run and the same
  // source.
  predicate SameAgent(g: Header, h: Header) {
    g.run == h.run && (g.run == "" ==> g.sourceType == h.sourceType && g.sourceId == h.sourceId)
  }

  predicate NoColons(h: Header) {
    ':' !in h.run && ':' !in h.sourceType
  }

  lemma {:induction false} FirstColon(a: string, b: string, c: string, d: string)
    requires ':' !in a && ':' !in c && a + ":" + b == c + ":" + d
    ensures a == c && b == d
  {
    var s := a + ":" + b;
    assert s[..|a|] == a && s[..|c|] == c;
    assert s[|a|] == ':' && s[|c|] == ':';
    assert |a| == |c|;
    assert s[|a| + 1..] == b && s[|c| + 1..] == d;
  }

  // The keys of the reader tell agents apart as long as the identifiers of runs and
  // the types of sources hold no colon.
  lemma {:induction false} KeysTellAgents(g: Header, h: Header)
    requires NoColons(g) && NoColons(h)
    ensures KeyOf(g) == KeyOf(h) <==> SameAgent(g, h)
  {
    if g.run == "" && h.run == "" {
      if KeyOf(g) == KeyOf(h) {
        FirstColon(g.sourceType, g.sourceId, h.sourceType, h.sourceId);
      }
    } else if g.run == "" {
      assert KeyOf(g)[|g.sourceType|] == ':';
    } else if h.run == "" {
      assert KeyOf(h)[|h.sourceType|] == ':';
    }
  }

  ghost predicate Uncoloned(events: seq<Event>) {
    forall i :: 0 <= i < |events| ==> NoColons(events[i].header)
  }

  // Then the recorders stamp the lines of a key alike if and only if each agent
  // stamps its own lines alike.
  lemma {:induction false} AgentsAgree(raw: seq<Event>)
    requires Uncoloned(raw)
    ensures HeadersAgree(raw) <==>
      forall i, j :: 0 <= i < |raw| && 0 <= j < |raw| && SameAgent(raw[i].header, raw[j].header) ==>
        raw[i].header == raw[j].header
  {
    forall i, j | 0 <= i < |raw| && 0 <= j < |raw|
      ensures KeyOf(raw[i].header) == KeyOf(raw[j].header) <==> SameAgent(raw[i].header, raw[j].header)
    {
      KeysTellAgents(raw[i].header, raw[j].header);
    }
  }

  // A run called like a source is taken for it.
  lemma {:induction false} ColonsConfuse()
    ensures exists g, h :: KeyOf(g) == KeyOf(h) && !SameAgent(g, h)
  {
    var g, h := Header("t", "tree:a", "gardener", "", ""), Header("t", "", "tree", "a", "");
    assert KeyOf(g) == KeyOf(h) && !SameAgent(g, h);
  }

  function OfAgent(events: seq<Event>, h: Header): seq<Event> {
    if events == [] then []
    else
      var n := |events| - 1;
      OfAgent(events[..n], h) + if SameAgent(events[n].header, h) then [events[n]] else []
  }

  lemma {:induction false} AgentHasKey(events: seq<Event>, h: Header)
    requires NoColons(h) && Uncoloned(events)
    ensures OfKey(events, KeyOf(h)) == OfAgent(events, h)
  {
    if events != [] {
      var n := |events| - 1;
      AgentHasKey(events[..n], h);
      KeysTellAgents(events[n].header, h);
    }
  }

  // However the lines of the agents were interleaved, what is read for an agent is
  // what would be read from a file with its lines only.
  lemma {:induction false} AgentsAreIndependent(events: seq<Event>, h: Header)
    requires NoColons(h) && Uncoloned(events)
    ensures RecordsOf(Parse(events).records, KeyOf(h)) == Parse(OfAgent(events, h)).records
  {
    AgentHasKey(events, h);
    Demultiplexed(events, KeyOf(h));
  }

  // ---- the recorder ----

  // A number line is written if a "tokens used" line came before it with no number
  // line in between; all other lines that say anything always are.
  ghost predicate Wanted(raw: seq<Event>, i: nat)
    requires i <= |raw|
  {
    exists j :: 0 <= j < i && raw[j].line.used && forall k :: j < k < i ==> raw[k].line.number.None?
  }

  ghost predicate IsWritten(raw: seq<Event>, i: nat)
    requires i < |raw|
  {
    var l := raw[i].line;
    l.model.Some? || l.detail.Some? || l.used || (l.number.Some? && Wanted(raw, i))
  }

  lemma {:induction false} WantedGrows(raw: seq<Event>, e: Event)
    ensures Wanted(raw + [e], |raw| + 1) <==> e.line.used || (Wanted(raw, |raw|) && e.line.number.None?)
  {
    var more, n := raw + [e], |raw|;
    assert more[n] == e;
    if Wanted(more, n + 1) {
      var j :| 0 <= j < n + 1 && more[j].line.used && forall k :: j < k < n + 1 ==> more[k].line.number.None?;
      if j < n {
        assert raw[j] == more[j] && forall k :: j < k < n ==> raw[k] == more[k];
      }
    }
    if Wanted(raw, n) && e.line.number.None? {
      var j :| 0 <= j < n && raw[j].line.used && forall k :: j < k < n ==> raw[k].line.number.None?;
      assert more[j] == raw[j] && forall k :: j < k < n ==> raw[k] == more[k];
    }
  }

  lemma {:induction false} RecorderWants(raw: seq<Event>, h: Header)
    requires AllFrom(raw, h)
    ensures ExpectAt(Write(raw).expects, KeyOf(h)) <==> Wanted(raw, |raw|)
  {
    if raw != [] {
      var n := |raw| - 1;
      RecorderWants(raw[..n], h);
      WantedGrows(raw[..n], raw[n]);
      assert raw == raw[..n] + [raw[n]];
    }
  }

  // Line `i` of an agent goes to its file exactly when it is of use.
  lemma {:induction false} WritesExactly(raw: seq<Event>, h: Header, i: nat)
    requires AllFrom(raw, h) && i < |raw|
    ensures Write(raw[..i + 1]).events == Write(raw[..i]).events + if IsWritten(raw, i) then [raw[i]] else []
  {
    RecorderWants(raw[..i], h);
    WritePrefix(raw[..i], raw[i]);
    assert raw[..i + 1] == raw[..i] + [raw[i]];
    var before := raw[..i];
    assert forall k :: 0 <= k < i ==> before[k] == raw[k];
    assert Wanted(before, i) <==> Wanted(raw, i);
  }
}
